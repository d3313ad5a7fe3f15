/** The other end of the wire: what a peer that parses and decodes our output makes of the header blocks in it. */
module Http2Peer {
  import opened Bytes
  import opened HpackInteger
  import opened HpackSpec
  import opened HpackRoundTrip
  import opened Http2Frames
  import opened Http2Fields
  import opened Http2Spec
  import opened Http2Trace
  import opened Http2Invariant
  import opened Http2Safety
  import opened Http2Reach
  import opened Http2Silence
  import opened Http2Wire

  // ---- the peer ----

  datatype HeaderList = HeaderList(id: nat, fields: seq<Field>)

  function Collect(frames: seq<Frame>): Inbox {
    if frames == [] then EMPTY_INBOX else OnFrame(Collect(frames[..|frames| - 1]), frames[|frames| - 1])
  }

  /** One decoder for all blocks, in order; limits[k] is the table size it allows when block k arrives. */
  function ReadAll(h: Huffman, st: DecState, blocks: seq<HeaderBlock>, limits: seq<nat>): Option<seq<HeaderList>>
    requires |limits| == |blocks|
    decreases |blocks|
  {
    if blocks == [] then Some([])
    else
      var d := DecodeBlock(h, st.(limit := limits[0]), blocks[0].block, false);
      if !d.ok then None
      else
        match ReadAll(h, d.st, blocks[1..], limits[1..])
        case None => None
        case Some(rest) => Some([HeaderList(blocks[0].id, d.fields)] + rest)
  }

  // ---- our side, as the log has it ----

  function BlocksMade(starts: seq<Start>): seq<HeaderBlock> {
    seq(|starts|, k requires 0 <= k < |starts| => HeaderBlock(starts[k].id, starts[k].block))
  }

  function HeaderLists(starts: seq<Start>): seq<HeaderList> {
    seq(|starts|, k requires 0 <= k < |starts| => HeaderList(starts[k].id, starts[k].fields))
  }

  lemma {:induction false} CollectsQueued(t: Trace)
    ensures Collect(Queued(t)) == InboxOf(t)
  {
    hide OnFrame;
    if t.Then? {
      CollectsQueued(t.before);
      if t.last.Out? {
        var f := t.last.frame.(id := t.last.frame.id % TWO31);
        assert (Queued(t.before) + [f])[..|Queued(t)| - 1] == Queued(t.before);
      }
    }
  }

  /** Only sizes the peer has allowed are announced to it. */
  predicate Modest(es: EncState, limit: nat) {
    es.tableSize <= limit && es.tableSize <= TABLE_BYTES && (es.pending ==> es.pendingMin == es.tableSize)
  }

  /** The block is some state's encoding of the fields. */
  ghost predicate Encoded(h: Huffman, s: Start) {
    && s.id < TWO31 && |s.block| <= MAX_RESPONSE_BLOCK
    && exists es: EncState :: Modest(es, s.limit) && s.block == EncodeBlock(h, es, s.fields)
  }

  /** The peer has the blocks of all messages started, each an encoding of its fields. */
  ghost predicate Spoken(h: Huffman, t: Trace) {
    InboxOf(t) == Inbox(true, 0, [], BlocksMade(Starts(t))) && forall s | s in Starts(t) :: Encoded(h, s)
  }

  ghost predicate Coded(c: Conn) {
    Spoken(c.huffman, c.log) && (!c.state.Dead? ==> Modest(c.enc, PeerSetting(c.log, 1, TABLE_BYTES)))
  }

  /** The header lists handed over between c and c'. */
  ghost predicate Handed(c: Conn, c': Conn, lists: seq<HeaderList>) {
    c'.huffman == c.huffman && HeaderLists(Starts(c'.log)) == HeaderLists(Starts(c.log)) + lists
  }

  lemma HushedCoded(c: Conn, c': Conn)
    requires Coded(c) && Hushed(c, c')
    ensures Coded(c') && Handed(c, c', [])
  {
    hide PeerSetting, Starts, InboxOf, Encoded, BlocksMade, Modest, HeaderLists;
  }

  lemma FrameCoded(c: Conn, f: Frame)
    requires Coded(c) && f.kind != SETTINGS
    ensures Coded(HandleFrame(c, f)) && Handed(c, HandleFrame(c, f), [])
  {
    hide Coded, Handed, PeerSetting, Starts, InboxOf, ConnError, Dispatch;
    var c1 := Log(c, In(f));
    assert Hushed(c, c1) by { ArrivedHushed(c, f); }
    var c2 := c1.(firstSeen := true);
    ConnErrorHushed(c1, ENHANCE_YOUR_CALM);
    ConnErrorHushed(c2, PROTOCOL_ERROR);
    DispatchHushed(c2, f);
    HushedCoded(c, HandleFrame(c, f));
  }

  // ---- settings ----

  /** All but the encoder as in Hushed. */
  ghost predicate Settled(c: Conn, c': Conn) {
    c'.huffman == c.huffman && Silent(c.log, c'.log)
  }

  lemma ApplySettingModest(c: Conn, id: nat, v: nat, d: nat)
    requires Modest(c.enc, d) && !c.state.Dead?
    ensures var c' := ApplySetting(c, id, v);
            Settled(c, c') && (!c'.state.Dead? ==> c'.log == c.log && Modest(c'.enc, if id == 1 then v else d))
  {
    hide PeerSetting, Starts, InboxOf, ConnError, Adjust;
    ConnErrorHushed(c, PROTOCOL_ERROR);
    ConnErrorHushed(c, FLOW_CONTROL_ERROR);
    ConnErrorHushed(c.(streams := Adjust(c.streams, c.openIds, v - c.peer.window).streams), FLOW_CONTROL_ERROR);
  }

  lemma {:induction false} ApplySettingsModest(c: Conn, payload: seq<byte>, d: nat)
    requires |payload| % 6 == 0 && Modest(c.enc, d) && !c.state.Dead?
    ensures var c' := ApplySettings(c, payload);
            Settled(c, c') && (!c'.state.Dead? ==> c'.log == c.log && Modest(c'.enc, LastIn(payload, 1, d)))
    decreases |payload|
  {
    hide PeerSetting, Starts, InboxOf, ApplySetting, Modest;
    if payload != [] {
      var id, v := GetU16(payload[..2]), GetU32(payload[2..6]);
      ApplySettingModest(c, id, v, d);
      var c1 := ApplySetting(c, id, v);
      if !c1.state.Dead? {
        ApplySettingsModest(c1, payload[6..], if id == 1 then v else d);
      }
    }
  }

  lemma SpokenOn(h: Huffman, t: Trace, t': Trace)
    requires Spoken(h, t) && Silent(t, t')
    ensures Spoken(h, t') && Starts(t') == Starts(t)
  {
    hide PeerSetting, Starts, InboxOf, BlocksMade, Encoded;
  }

  lemma SettingsCoded(c0: Conn, f: Frame, c: Conn)
    requires Coded(c0) && !c0.state.Dead? && f.kind == SETTINGS && c == c0.(log := Then(c0.log, In(f)), firstSeen := true)
    ensures var c' := HandleSettings(c, f); Coded(c') && c'.huffman == c.huffman && Starts(c'.log) == Starts(c.log)
  {
    var d := PeerSetting(c0.log, 1, TABLE_BYTES);
    ArrivedSpoken(c0, f);
    assert PeerSetting(c.log, 1, TABLE_BYTES) == if !Bit0(f.flags) && |f.payload| % 6 == 0 then LastIn(f.payload, 1, d) else d;
    hide Spoken, Starts, InboxOf, ConnError, ApplySettings, Pump, Modest, LastIn, PeerSetting;
    DeadCoded(c, PROTOCOL_ERROR);
    DeadCoded(c, FRAME_SIZE_ERROR);
    if f.id == 0 && !Bit0(f.flags) && |f.payload| % 6 == 0 {
      ApplySettingsModest(c, f.payload, d);
      var c1 := ApplySettings(c, f.payload);
      SpokenOn(c.huffman, c.log, c1.log);
      DeadCoded(c1, ENHANCE_YOUR_CALM);
      var ack := Frame(SETTINGS, 1, 0, []);
      EmitHushed(c1, ack);
      PumpHushed(c1, Emit(c1, ack));
      if !c1.state.Dead? {
        HushedCoded(c1, Pump(Emit(c1, ack)));
      }
    }
  }

  lemma DeadCoded(c: Conn, code: nat)
    requires Spoken(c.huffman, c.log)
    ensures var c' := ConnError(c, code); Coded(c') && c'.huffman == c.huffman && Starts(c'.log) == Starts(c.log)
  {
    ConnErrorHushed(c, code);
    hide Spoken, Silent, ConnError, Modest;
    SpokenOn(c.huffman, c.log, ConnError(c, code).log);
  }

  lemma ArrivedSpoken(c: Conn, f: Frame)
    requires Coded(c)
    ensures Spoken(c.huffman, Then(c.log, In(f))) && Starts(Then(c.log, In(f))) == Starts(c.log)
  {
    hide Encoded, BlocksMade, PeerSetting;
  }

  lemma SettingsFrameCoded(c: Conn, f: Frame)
    requires Coded(c) && !c.state.Dead? && f.kind == SETTINGS
    ensures Coded(HandleFrame(c, f)) && Handed(c, HandleFrame(c, f), [])
  {
    hide Coded, Spoken, Starts, HeaderLists, ConnError, HandleData, HandleHeaders, HandlePriority, HandleRst, HandleSettings, HandlePing,
         HandleGoaway, HandleWindowUpdate, HandleContinuation;
    var c1 := Log(c, In(f));
    ArrivedSpoken(c, f);
    DeadCoded(c1, ENHANCE_YOUR_CALM);
    DeadCoded(c1.(firstSeen := true), PROTOCOL_ERROR);
    SettingsCoded(c, f, c1.(firstSeen := true));
  }

  // ---- messages that are started ----

  /** What the peer has once a block is out. */
  lemma {:induction false} EmitBlockSpoken(c: Conn, id: nat, block: seq<byte>, first: bool, end: bool, b: Inbox)
    requires InboxOf(c.log) == b && b.ok && 0 < id < TWO31 && b.open == (if first then 0 else id) && (first ==> b.partial == [])
    ensures var c' := EmitBlock(c, id, block, first, end);
            && c' == c.(log := c'.log, backlog := c'.backlog)
            && InboxOf(c'.log) == Inbox(true, 0, [], b.blocks + [HeaderBlock(id, b.partial + block)])
            && Starts(c'.log) == Starts(c.log) && PeerSetting(c'.log, 1, TABLE_BYTES) == PeerSetting(c.log, 1, TABLE_BYTES)
    decreases |block|
  {
    hide EmitBlock, OnFrame, Starts, PeerSetting, InboxOf, Bit2, Bit3, Bit5, HeaderFlags;
    var kind, n := if first then HEADERS else CONTINUATION, c.peer.maxFrame;
    var last := |block| <= n || n == 0;
    var part := if last then block else block[..n];
    var f := Frame(kind, HeaderFlags(last, first && end), id, part);
    BlockStep(c, id, block, first, end, f);
    FlagBits(last, first && end);
    FrameSpoken(b, f, first, last);
    OutAside(c.log, f);
    if !last {
      var b1 := Inbox(true, id, b.partial + part, b.blocks);
      EmitBlockSpoken(Emit(c, f), id, block[n..], false, end, b1);
      assert block == block[..n] + block[n..];
      Regroup(b.partial, block[..n], block[n..]);
    }
  }

  lemma BlockStep(c: Conn, id: nat, block: seq<byte>, first: bool, end: bool, f: Frame)
    requires var n := c.peer.maxFrame;
             var last := |block| <= n || n == 0;
             f == Frame(if first then HEADERS else CONTINUATION, HeaderFlags(last, first && end), id, if last then block else block[..n])
    ensures var n := c.peer.maxFrame;
            EmitBlock(c, id, block, first, end)
              == if |block| <= n || n == 0 then Emit(c, f) else EmitBlock(Emit(c, f), id, block[n..], false, end)
  {
    hide HeaderFlags;
  }

  lemma FlagBits(last: bool, end: bool)
    ensures var flags := HeaderFlags(last, end); Bit2(flags) == last && !Bit3(flags) && !Bit5(flags)
  {
  }

  lemma FrameSpoken(b: Inbox, f: Frame, first: bool, last: bool)
    requires b.ok && 0 < f.id && b.open == (if first then 0 else f.id) && (first ==> b.partial == [])
    requires f.kind == (if first then HEADERS else CONTINUATION)
    requires Bit2(f.flags) == last && !Bit3(f.flags) && !Bit5(f.flags)
    ensures OnFrame(b, f) == if last then Inbox(true, 0, [], b.blocks + [HeaderBlock(f.id, b.partial + f.payload)])
                             else Inbox(true, f.id, b.partial + f.payload, b.blocks)
  {
    assert f.payload[0..|f.payload|] == f.payload && [] + f.payload == f.payload;
  }

  lemma OutAside(t: Trace, f: Frame)
    ensures Starts(Then(t, Out(f))) == Starts(t)
    ensures PeerSetting(Then(t, Out(f)), 1, TABLE_BYTES) == PeerSetting(t, 1, TABLE_BYTES)
    ensures f.id < TWO31 ==> InboxOf(Then(t, Out(f))) == OnFrame(InboxOf(t), f)
  {
    hide OnFrame;
    assert f.id < TWO31 ==> f.(id := f.id % TWO31) == f;
  }

  /** A message whose fields the encoder was given where it stands. */
  lemma BeginCoded(c: Conn, es: EncState, id: nat, fields: seq<Field>, block: seq<byte>, body: seq<byte>)
    requires Coded(c) && !c.state.Dead? && 0 < id < TWO31 && |block| <= MAX_RESPONSE_BLOCK
    requires Modest(es, PeerSetting(c.log, 1, TABLE_BYTES)) && block == EncodeBlock(c.huffman, es, fields)
    ensures var c' := EmitBlock(Log(c, Begin(id, fields, block, body)), id, block, true, body == []);
            Coded(c') && Handed(c, c', [HeaderList(id, fields)])
  {
    hide EncodeBlock, OnFrame;
    var c1 := Log(c, Begin(id, fields, block, body));
    var s := Start(id, fields, block, PeerSetting(c.log, 1, TABLE_BYTES));
    assert Starts(c1.log) == Starts(c.log) + [s] && Encoded(c.huffman, s);
    assert InboxOf(c1.log) == InboxOf(c.log) && PeerSetting(c1.log, 1, TABLE_BYTES) == PeerSetting(c.log, 1, TABLE_BYTES);
    hide Encoded, Starts, InboxOf, PeerSetting, EmitBlock, Modest;
    EmitBlockSpoken(c1, id, block, true, body == [], InboxOf(c1.log));
    assert [] + block == block;
    assert BlocksMade(Starts(c.log) + [s]) == BlocksMade(Starts(c.log)) + [HeaderBlock(id, block)];
    assert HeaderLists(Starts(c.log) + [s]) == HeaderLists(Starts(c.log)) + [HeaderList(id, fields)];
  }

  lemma NoneHanded(c: Conn)
    ensures Handed(c, c, [])
  {
  }

  lemma TableIds(c: Conn, id: nat)
    requires Table(c)
    ensures (id in c.streams ==> 0 < id < TWO31) && (!c.server && c.lastId < MAX_ID ==> c.lastId + 2 < TWO31)
  {
  }

  /** What the application hands over in a step: the fields of a response or request that is accepted. */
  function Accepted(c: Conn, step: Step): seq<HeaderList> {
    match step
    case Respond(id, status, hs, _) =>
      var fields := AnswerFields(if 100 <= status <= 999 then status else 500, hs);
      if && c.server && !c.state.Dead? && id in c.streams && CanSend(c.streams[id].state) && !c.streams[id].sendPending
         && |EncodeBlock(c.huffman, c.enc, fields)| <= MAX_RESPONSE_BLOCK
      then [HeaderList(id, fields)] else []
    case Ask(fields, body) =>
      if SendRequest(c, fields, body).Done? then [HeaderList(if c.lastId == 0 then 1 else c.lastId + 2, fields)] else []
    case _ => []
  }

  lemma RespondCoded(c: Conn, id: nat, status: nat, hs: seq<AppHeader>, body: seq<byte>)
    requires Table(c) && Coded(c)
    ensures var c' := Keep(c, SendResponse(c, id, status, hs, body));
            Coded(c') && Handed(c, c', Accepted(c, Respond(id, status, hs, body)))
  {
    hide Handed, Table, Coded, Hushed, StreamError, Answer, EncodeBlock, AnswerFields, PeerSetting;
    TableIds(c, id);
    NoneHanded(c);
    if SendResponse(c, id, status, hs, body).Done? {
      StreamErrorHushed(c, id, INTERNAL_ERROR);
      HushedCoded(c, StreamError(c, id, INTERNAL_ERROR));
      var code := if 100 <= status <= 999 then status else 500;
      var fields := AnswerFields(code, hs);
      var block := EncodeBlock(c.huffman, c.enc, fields);
      if |block| <= MAX_RESPONSE_BLOCK {
        AnswerCoded(c, id, fields, block, if c.streams[id].isHead || code == 204 || code == 304 then [] else body);
      }
    }
  }

  lemma TellsModest(c: Conn)
    requires Coded(c) && !c.state.Dead?
    ensures Modest(c.enc, PeerSetting(c.log, 1, TABLE_BYTES)) && Coded(c.(enc := c.enc.(pending := false)))
  {
    hide Spoken, PeerSetting;
  }

  lemma AnswerCoded(c: Conn, id: nat, fields: seq<Field>, block: seq<byte>, body: seq<byte>)
    requires Coded(c) && !c.state.Dead? && id in c.streams && 0 < id < TWO31
    requires |block| <= MAX_RESPONSE_BLOCK && block == EncodeBlock(c.huffman, c.enc, fields)
    ensures var c' := Answer(c.(enc := c.enc.(pending := false)), id, fields, block, body);
            Coded(c') && Handed(c, c', [HeaderList(id, fields)])
  {
    TellsModest(c);
    hide Coded, HeaderLists, PeerSetting, Starts, InboxOf, EncodeBlock, EmitBlock, Pump, CloseStream, Modest;
    var c1 := c.(enc := c.enc.(pending := false));
    var s := c1.streams[id];
    var c2 := c1.(earlyAnswers := if s.complete then c1.earlyAnswers else c1.earlyAnswers + {id});
    HushedCoded(c1, c2);
    BeginCoded(c2, c.enc, id, fields, block, body);
    var c3 := EmitBlock(Log(c2, Begin(id, fields, block, body)), id, block, true, body == []);
    var c' := Answer(c1, id, fields, block, body);
    var s1 := s.(state := AfterHeadersSent(s.state, body == []));
    var c4 := SetStream(c3, id, if body == [] then s1 else s1.(body := body, sendOff := 0, sendPending := true));
    CloseHushed(c4, id);
    PumpHushed(c3, c4);
    HushedCoded(c3, c');
    Regroup(HeaderLists(Starts(c.log)), [HeaderList(id, fields)], []);
  }

  lemma AskCoded(c: Conn, fields: seq<Field>, body: seq<byte>)
    requires Table(c) && Coded(c)
    ensures var c' := Keep(c, SendRequest(c, fields, body)); Coded(c') && Handed(c, c', Accepted(c, Ask(fields, body)))
  {
    hide Handed, Table, Coded, EncodeBlock, EmitBlock, Pump, RequestOk, IsHeadRequest;
    TableIds(c, 0);
    NoneHanded(c);
    if SendRequest(c, fields, body).Done? {
      var id := if c.lastId == 0 then 1 else c.lastId + 2;
      var s := Stream(if body == [] then HalfClosedLocal else Open, c.peer.window, LOCAL_WINDOW,
                      body, 0, body != [], IsHeadRequest(fields), false, 0, 0, [], false, 0);
      var c1 := c.(enc := c.enc.(pending := false), lastId := id, streams := c.streams[id := s], openIds := c.openIds + [id]);
      LaunchCoded(c, id, fields, EncodeBlock(c.huffman, c.enc, fields), body, c1);
    }
  }

  lemma LaunchCoded(c: Conn, id: nat, fields: seq<Field>, block: seq<byte>, body: seq<byte>, c1: Conn)
    requires Coded(c) && !c.state.Dead? && 0 < id < TWO31
    requires |block| <= MAX_RESPONSE_BLOCK && block == EncodeBlock(c.huffman, c.enc, fields)
    requires c1.log == c.log && c1.huffman == c.huffman && c1.state == c.state && c1.enc == c.enc.(pending := false)
    ensures var c' := Pump(EmitBlock(Log(Log(c1, Opened(id, fields)), Begin(id, fields, block, body)), id, block, true, body == []));
            Coded(c') && Handed(c, c', [HeaderList(id, fields)])
  {
    TellsModest(c);
    hide Coded, HeaderLists, PeerSetting, Starts, InboxOf, EncodeBlock, EmitBlock, Pump, Modest;
    var c0 := c.(enc := c.enc.(pending := false));
    var c2 := Log(c1, Opened(id, fields));
    LogHushed(c.log, Opened(id, fields));
    HushedCoded(c0, c2);
    BeginCoded(c2, c.enc, id, fields, block, body);
    var c3 := EmitBlock(Log(c2, Begin(id, fields, block, body)), id, block, true, body == []);
    PumpHushed(c3, c3);
    HushedCoded(c3, Pump(c3));
    Regroup(HeaderLists(Starts(c.log)), [HeaderList(id, fields)], []);
  }

  lemma GoawayCallCoded(c: Conn, code: nat, debug: seq<byte>)
    requires Coded(c)
    ensures Coded(Keep(c, SendGoaway(c, code, debug))) && Handed(c, Keep(c, SendGoaway(c, code, debug)), [])
  {
    hide Coded, Handed, PeerSetting, Starts, InboxOf, ConnError, ResetAll, SayGoaway;
    ConnErrorHushed(c, ENHANCE_YOUR_CALM);
    var c1 := SayGoaway(c, code, debug[..Min(|debug|, LOCAL_MAX_FRAME - 8)]);
    SayHushed(c, code, debug[..Min(|debug|, LOCAL_MAX_FRAME - 8)]);
    var c2 := if code != NO_ERROR then c1.(error := code, state := Dead) else if c1.state.Active? then c1.(state := GoawaySent) else c1;
    ResetAllHushed(c2, code);
    HushedCoded(c, Keep(c, SendGoaway(c, code, debug)));
  }

  // ---- every run ----

  lemma StepCoded(c: Conn, step: Step)
    requires Table(c) && Coded(c) && Enabled(c, step)
    ensures Coded(Take(c, step)) && Handed(c, Take(c, step), Accepted(c, step))
  {
    hide Handed, Table, Coded, PeerSetting, Starts, InboxOf, HandleFrame, ConnError, StreamError, SendResponse, SendRequest, SendGoaway, Pump;
    HushedCoded(c, c);
    match step {
      case Arrive(f) => if f.kind == SETTINGS { SettingsFrameCoded(c, f); } else { FrameCoded(c, f); }
      case Prefaced =>
        HushedCoded(c, c.(state := Active));
      case Violate(code) =>
        ConnErrorHushed(c, code);
        HushedCoded(c, ConnError(c, code));
      case Respond(id, status, headers, body) => RespondCoded(c, id, status, headers, body);
      case Ask(fields, body) => AskCoded(c, fields, body);
      case Reset(id, code) =>
        StreamErrorHushed(c, id, code);
        HushedCoded(c, StreamError(c, id, code));
      case Goaway(code, debug) => GoawayCallCoded(c, code, debug);
      case Drain(n) =>
        var c1 := c.(backlog := c.backlog - Min(n, c.backlog));
        PumpHushed(c, c1);
        HushedCoded(c, c1);
        HushedCoded(c, Pump(c1));
    }
  }

  /** Everything handed over in a run, in order. */
  function AllAccepted(c: Conn, steps: seq<Step>): seq<HeaderList>
    decreases |steps|
  {
    if steps == [] then [] else Accepted(c, steps[0]) + AllAccepted(Take(c, steps[0]), steps[1..])
  }

  lemma {:induction false} RunCoded(c: Conn, steps: seq<Step>)
    requires Inv(c) && Coded(c) && Legal(c, steps)
    ensures Coded(After(c, steps)) && Handed(c, After(c, steps), AllAccepted(c, steps))
    decreases |steps|
  {
    hide Inv, Coded, Take, Enabled, Table, Accepted, Starts, HeaderLists;
    if steps == [] {
      NoneHanded(c);
    } else {
      var c1 := Take(c, steps[0]);
      InvIsTable(c);
      StepInv(c, steps[0]);
      StepCoded(c, steps[0]);
      RunCoded(c1, steps[1..]);
      Regroup(HeaderLists(Starts(c.log)), Accepted(c, steps[0]), AllAccepted(c1, steps[1..]));
    }
  }

  lemma InitCoded(server: bool, huffman: Huffman, maxBody: nat)
    ensures var c := Init(server, huffman, maxBody); Coded(c) && Starts(c.log) == [] && c.huffman == huffman
  {
    assert LocalSettings(server).kind == SETTINGS;
    hide LocalSettings, PREFACE;
    var c := Init(server, huffman, maxBody);
    assert c.log == Then(Empty, Out(LocalSettings(server)));
    assert Starts(Empty) == [] && InboxOf(Empty) == EMPTY_INBOX && PeerSetting(Empty, 1, TABLE_BYTES) == TABLE_BYTES;
    assert BlocksMade([]) == [];
  }

  // ---- the peer reads what was meant ----

  lemma {:induction false} FieldsFit(h: Huffman, fs: seq<Field>)
    requires |EncodeFields(h, fs)| <= MAX_STRING
    ensures forall f | f in fs :: FieldFits(h, f)
  {
    hide FieldFits, EncodeField;
    if fs != [] {
      FieldFitsIn(h, fs[0]);
      FieldsFit(h, fs[1..]);
    }
  }

  lemma FieldFitsIn(h: Huffman, f: Field)
    requires |EncodeField(h, f)| <= MAX_STRING
    ensures FieldFits(h, f)
  {
    hide EncodeInt, FindFrom, FindNameFrom;
  }

  /** Whatever decoder the block meets, if its limit is what we were told or more. */
  lemma StartReads(h: Huffman, st: DecState, s: Start)
    requires Lossless(h) && Encoded(h, s) && st.limit >= s.limit
    ensures var d := DecodeBlock(h, st, s.block, false); d.ok && d.fields == s.fields
  {
    var es: EncState :| Modest(es, s.limit) && s.block == EncodeBlock(h, es, s.fields);
    hide EncodeFields, EncodeUpdates, DecodeBlock, FieldFits, Lossless;
    FieldsFit(h, s.fields);
    BlockRoundTrip(h, es, st, s.fields);
  }

  lemma {:induction false} StartsRead(h: Huffman, st: DecState, starts: seq<Start>, limits: seq<nat>)
    requires Lossless(h) && |limits| == |starts|
    requires forall k | 0 <= k < |starts| :: Encoded(h, starts[k]) && limits[k] >= starts[k].limit
    ensures ReadAll(h, st, BlocksMade(starts), limits) == Some(HeaderLists(starts))
    decreases |starts|
  {
    hide Lossless, Encoded, DecodeBlock;
    if starts != [] {
      StartReads(h, st.(limit := limits[0]), starts[0]);
      var d := DecodeBlock(h, st.(limit := limits[0]), starts[0].block, false);
      assert BlocksMade(starts)[1..] == BlocksMade(starts[1..]);
      assert HeaderLists(starts) == [HeaderList(starts[0].id, starts[0].fields)] + HeaderLists(starts[1..]);
      StartsRead(h, d.st, starts[1..], limits[1..]);
    }
  }

  /**
   * Over any run: a peer that cuts our octets into frames, assembles the header blocks and decodes them in order gets
   * exactly the header lists the application handed over, in order; whatever its decoder held, as long as it allows
   * at each block the table size it had announced by then.
   */
  lemma PeerReadsHeaders(server: bool, huffman: Huffman, maxBody: nat, steps: seq<Step>, st: DecState, limits: seq<nat>)
    requires var c := Init(server, huffman, maxBody);
             && Legal(c, steps) && Lossless(huffman) && |limits| == |Starts(After(c, steps).log)|
             && forall k | 0 <= k < |limits| :: limits[k] >= Starts(After(c, steps).log)[k].limit
    ensures var c := Init(server, huffman, maxBody);
            var octets := OutBytes(After(c, steps).log);
            && ParseFrames(octets).Some?
            && var inbox := Collect(ParseFrames(octets).value);
               && inbox.ok && inbox.open == 0 && |inbox.blocks| == |limits|
               && ReadAll(huffman, st, inbox.blocks, limits) == Some(AllAccepted(c, steps))
  {
    hide Init, After, Legal, Inv, Coded, Reached, Lossless, ParseFrames, OutBytes, Collect, ReadAll, Queued, InboxOf, Starts,
         AllAccepted;
    var c := Init(server, huffman, maxBody);
    var d := After(c, steps);
    RunReached(server, huffman, maxBody, steps);
    InitInv(server, huffman, maxBody);
    InitCoded(server, huffman, maxBody);
    RunCoded(c, steps);
    assert [] + AllAccepted(c, steps) == AllAccepted(c, steps) && HeaderLists([]) == [];
    OutputReparses(d);
    CollectsQueued(d.log);
    CodedReads(d, st, limits);
  }

  lemma RunReached(server: bool, huffman: Huffman, maxBody: nat, steps: seq<Step>)
    requires Legal(Init(server, huffman, maxBody), steps)
    ensures Reached(After(Init(server, huffman, maxBody), steps))
  {
    hide Init, After, Legal;
  }

  lemma CodedReads(c: Conn, st: DecState, limits: seq<nat>)
    requires Coded(c) && Lossless(c.huffman) && |limits| == |Starts(c.log)|
    requires forall k | 0 <= k < |limits| :: limits[k] >= Starts(c.log)[k].limit
    ensures var inbox := InboxOf(c.log);
            && inbox.ok && inbox.open == 0 && |inbox.blocks| == |limits|
            && ReadAll(c.huffman, st, inbox.blocks, limits) == Some(HeaderLists(Starts(c.log)))
  {
    hide Lossless, ReadAll, InboxOf, Starts, Encoded, HeaderLists;
    StartsRead(c.huffman, st, Starts(c.log), limits);
  }
}
