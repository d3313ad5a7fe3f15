/** The connection as a value, with every entry point of Http2Connection as a function on it. */
module Http2Spec {
  import opened Bytes
  import Decimals
  import opened HpackSpec
  import opened Http2Frames
  import opened Http2Fields

  const LOCAL_MAX_FRAME: nat := 16384
  const MAX_STREAMS: nat := 100
  const MAX_HEADER_BLOCK: nat := 65536
  const MAX_HEADERS: nat := 128
  const MAX_RESPONSE_BLOCK: nat := 65536
  const MAX_REQUEST_BODY: nat := 0x100_0000
  const LOCAL_WINDOW: int := 65535
  const MAX_WINDOW: int := 0x7FFF_FFFF
  const MAX_BACKLOG: nat := 0x10_0000
  const CLOSED_RING: nat := 256
  const MAX_PASSES: nat := 0x10_0000
  const MAX_ID: nat := 0x7FFF_FFFF
  const TABLE_BYTES: nat := 4096

  // ---- streams ----

  datatype StreamState = Idle | ReservedLocal | ReservedRemote | Open | HalfClosedLocal | HalfClosedRemote | Closed

  function AfterHeadersSent(s: StreamState, end: bool): StreamState {
    match s
    case Idle => if end then HalfClosedLocal else Open
    case ReservedLocal => if end then HalfClosedLocal else Open
    case Open => if end then HalfClosedLocal else Open
    case HalfClosedRemote => if end then Closed else HalfClosedRemote
    case _ => s
  }

  function AfterHeadersReceived(s: StreamState, end: bool): StreamState {
    match s
    case Idle => if end then HalfClosedRemote else Open
    case ReservedRemote => if end then HalfClosedRemote else Open
    case Open => if end then HalfClosedRemote else Open
    case HalfClosedLocal => if end then Closed else HalfClosedLocal
    case _ => s
  }

  function AfterDataSent(s: StreamState, end: bool): StreamState {
    if !end then s else
    match s
    case Open => HalfClosedLocal
    case HalfClosedRemote => Closed
    case _ => s
  }

  function AfterDataReceived(s: StreamState, end: bool): StreamState {
    if !end then s else
    match s
    case Open => HalfClosedRemote
    case HalfClosedLocal => Closed
    case _ => s
  }

  predicate CanSend(s: StreamState) { s.Open? || s.HalfClosedRemote? }
  predicate CanReceive(s: StreamState) { s.Open? || s.HalfClosedLocal? }

  /** body/sendOff: what is being sent. content/received: what has arrived. status: a client's final response status, or 0. */
  datatype Stream = Stream(
    state: StreamState, sendWindow: int, recvWindow: int,
    body: seq<byte>, sendOff: nat, sendPending: bool,
    isHead: bool, hasLength: bool, length: nat, received: nat, content: seq<byte>,
    complete: bool, status: nat)

  // ---- history ----

  datatype Kind = HeadersEvent | DataEvent | TrailersEvent | CompleteEvent | ResetEvent

  datatype Response = Response(kind: Kind, id: nat, status: nat, error: nat, fields: seq<Field>, data: seq<byte>, end: bool)

  datatype Entry =
    | In(frame: Frame)                                    // handed to handle_frame
    | Out(frame: Frame)                                   // queued for the peer
    | Opened(id: nat, fields: seq<Field>)                 // a stream came to life with these request fields
    | Begin(id: nat, fields: seq<Field>, block: seq<byte>, body: seq<byte>) // a response or request was accepted for sending
    | Request(id: nat, content: seq<byte>)                // the request callback
    | Event(response: Response)                           // the response callback

  /** Everything that happened, in order. */
  datatype Trace = Empty | Then(before: Trace, last: Entry)

  // ---- the connection ----

  datatype ConnState = PrefacePending | Active | GoawaySent | GoawayReceived | Dead

  datatype Peer = Peer(tableSize: nat, push: bool, maxStreams: nat, window: nat, maxFrame: nat, maxHeaderList: nat)

  /** The header block being assembled; id 0 when none is. */
  datatype Assembly = Assembly(id: nat, end: bool, selfDependent: bool, bytes: seq<byte>)

  datatype Conn = Conn(
    server: bool, huffman: Huffman, maxBody: nat,
    state: ConnState, firstSeen: bool, error: nat,
    peer: Peer, sendWindow: int, recvWindow: int,
    streams: map<nat, Stream>, openIds: seq<nat>, lastId: nat, acceptedId: nat, closedIds: seq<nat>,
    goawayIn: nat, goawayOut: nat,
    enc: EncState, dec: DecState, assembly: Assembly,
    backlog: nat,
    log: Trace,
    idleResets: set<nat>,   // odd ids that were reset before they were ever used
    earlyAnswers: set<nat>, // ids answered before their request had ended
    earlyGoaway: bool)      // a GOAWAY went out before the preface was complete

  const NO_ASSEMBLY: Assembly := Assembly(0, false, false, [])

  function Log(c: Conn, e: Entry): Conn { c.(log := Then(c.log, e)) }

  /** queue_frame */
  function Emit(c: Conn, f: Frame): Conn {
    c.(log := Then(c.log, Out(f)), backlog := c.backlog + HEADER_BYTES + |f.payload|)
  }

  function SetStream(c: Conn, id: nat, s: Stream): Conn { c.(streams := c.streams[id := s]) }

  function Notify(c: Conn, kind: Kind, id: nat, error: nat, fields: seq<Field>, data: seq<byte>, end: bool): Conn {
    Log(c, Event(Response(kind, id, if id in c.streams then c.streams[id].status else 0, error, fields, data, end)))
  }

  // ---- closing and errors ----

  /** The first occurrence of id is overwritten by the last element. */
  function SwapRemove(ids: seq<nat>, id: nat): (r: seq<nat>)
    ensures |r| == if id in ids then |ids| - 1 else |ids|
  {
    if id !in ids then ids
    else
      var i := FirstIndex(ids, id);
      ids[i := ids[|ids| - 1]][..|ids| - 1]
  }

  function FirstIndex(ids: seq<nat>, id: nat): (i: nat)
    requires id in ids
    ensures i < |ids| && ids[i] == id && id !in ids[..i]
  {
    if ids[0] == id then 0 else 1 + FirstIndex(ids[1..], id)
  }

  function CloseStream(c: Conn, id: nat): Conn {
    c.(openIds := SwapRemove(c.openIds, id), streams := c.streams - {id}, closedIds := c.closedIds + [id])
  }

  predicate RecentlyClosed(c: Conn, id: nat) {
    var n := |c.closedIds|;
    id in c.closedIds[if n > CLOSED_RING then n - CLOSED_RING else 0..]
  }

  function ResetAll(c: Conn, error: nat): Conn
    decreases |c.openIds|
  {
    if c.server || c.openIds == [] then c
    else
      var id := c.openIds[|c.openIds| - 1];
      ResetAll(CloseStream(Notify(c, ResetEvent, id, error, [], [], false), id), error)
  }

  function NextCutoff(c: Conn): nat { Min(c.goawayOut, if c.server then c.acceptedId else 0) }

  function GoawayFrame(cutoff: nat, code: nat, debug: seq<byte>): Frame {
    Frame(GOAWAY, 0, 0, PutU32(cutoff) + PutU32(code) + debug)
  }

  function SayGoaway(c: Conn, code: nat, debug: seq<byte>): Conn {
    Emit(c.(goawayOut := NextCutoff(c), earlyGoaway := c.earlyGoaway || c.state.PrefacePending?),
         GoawayFrame(NextCutoff(c), code, debug))
  }

  function ConnError(c: Conn, code: nat): Conn {
    if c.state.Dead? then c
    else ResetAll(SayGoaway(c, code, []).(error := code, state := Dead), code)
  }

  function RstFrame(id: nat, code: nat): Frame { Frame(RST_STREAM, 0, id, PutU32(code)) }

  predicate IdleOdd(c: Conn, id: nat) { id % 2 == 1 && id > c.lastId }

  function StreamError(c: Conn, id: nat, code: nat): Conn {
    if c.backlog > MAX_BACKLOG then ConnError(c, ENHANCE_YOUR_CALM)
    else
      var c1 := Emit(c.(idleResets := if IdleOdd(c, id) then c.idleResets + {id} else c.idleResets), RstFrame(id, code));
      if id in c1.streams then
        CloseStream(if c.server then c1 else Notify(c1, ResetEvent, id, code, [], [], false), id)
      else if RecentlyClosed(c1, id) then c1
      else c1.(closedIds := c1.closedIds + [id])
  }

  predicate IsIdle(c: Conn, id: nat) { id % 2 == 0 || id > c.lastId }

  // ---- sending ----

  function HeaderFlags(last: bool, end: bool): byte { (if last then 4 else 0) + (if end then 1 else 0) }

  /** queue_header_block: HEADERS, then as many CONTINUATION frames as the peer's frame size calls for. */
  function EmitBlock(c: Conn, id: nat, block: seq<byte>, first: bool, end: bool): Conn
    decreases |block|
  {
    var kind := if first then HEADERS else CONTINUATION;
    if |block| <= c.peer.maxFrame || c.peer.maxFrame == 0
    then Emit(c, Frame(kind, HeaderFlags(true, first && end), id, block))
    else
      EmitBlock(Emit(c, Frame(kind, HeaderFlags(false, first && end), id, block[..c.peer.maxFrame])),
                id, block[c.peer.maxFrame..], false, end)
  }

  /** Octets pump_stream would put in the next DATA frame; 0 when a window is shut. */
  function Quantum(c: Conn, s: Stream): nat
    requires s.sendOff <= |s.body|
  {
    var window := Min(c.sendWindow, s.sendWindow);
    if window <= 0 then 0
    else Min(Min(|s.body| - s.sendOff, if c.server then c.peer.maxFrame else LOCAL_MAX_FRAME), window)
  }

  /** Nothing can be sent for s now. A client also waits for its own output to drain. */
  predicate Blocked(c: Conn, s: Stream)
    requires s.sendOff <= |s.body|
  {
    || Min(c.sendWindow, s.sendWindow) <= 0
    || (!c.server && c.backlog + HEADER_BYTES + Quantum(c, s) > MAX_BACKLOG)
  }

  datatype Pumped = Pumped(c: Conn, progress: bool)

  function PumpStream(c: Conn, id: nat): Pumped {
    if id !in c.streams then Pumped(c, false)
    else
      var s := c.streams[id];
      if !s.sendPending || s.sendOff > |s.body| || Blocked(c, s) then Pumped(c, false)
      else
        var n := Quantum(c, s);
        var last := n == |s.body| - s.sendOff;
        var c1 := Emit(c, Frame(DATA, if last then 1 else 0, id, s.body[s.sendOff..s.sendOff + n]));
        var s1 := s.(sendOff := s.sendOff + n, sendWindow := s.sendWindow - n);
        var s2 := if last then s1.(sendPending := false, state := AfterDataSent(s.state, true)) else s1;
        var c2 := SetStream(c1.(sendWindow := c.sendWindow - n), id, s2);
        Pumped(if last && s2.state.Closed? then CloseStream(c2, id) else c2, true)
  }

  /** One round-robin pass over a snapshot of the open ids. */
  function PumpPass(c: Conn, ids: seq<nat>): Pumped
    decreases |ids|
  {
    if ids == [] then Pumped(c, false)
    else
      var first := PumpStream(c, ids[0]);
      var rest := PumpPass(first.c, ids[1..]);
      Pumped(rest.c, first.progress || rest.progress)
  }

  function PumpData(c: Conn, passes: nat): Conn
    decreases passes
  {
    if passes == 0 || c.sendWindow <= 0 then c
    else
      var pass := PumpPass(c, c.openIds);
      if pass.progress then PumpData(pass.c, passes - 1) else pass.c
  }

  function Pump(c: Conn): Conn { PumpData(c, MAX_PASSES) }

  // ---- application calls ----

  datatype AppHeader = AppHeader(name: seq<byte>, value: seq<byte>)

  function Lower(s: seq<byte>): (r: seq<byte>)
    ensures |r| == |s|
  {
    seq(|s|, i requires 0 <= i < |s| => if 65 <= s[i] <= 90 then s[i] + 32 else s[i])
  }

  function ResponseFields(hs: seq<AppHeader>): seq<Field> {
    if hs == [] then []
    else
      var name := Lower(hs[0].name);
      (if name == [] || ConnectionSpecific(name) then [] else [Field(name, hs[0].value, false)]) + ResponseFields(hs[1..])
  }

  function StatusText(status: nat): seq<byte>
    requires 100 <= status <= 999
  {
    [48 + status / 100, 48 + status / 10 % 10, 48 + status % 10]
  }

  /** The header list of a response. */
  function AnswerFields(code: nat, hs: seq<AppHeader>): seq<Field>
    requires 100 <= code <= 999
  {
    [Field(Ascii(":status"), StatusText(code), false)] + ResponseFields(hs)
  }

  /** A call either is refused without any effect or moves the connection. */
  datatype Outcome = Refused | Done(c: Conn)

  function SendResponse(c: Conn, id: nat, status: nat, hs: seq<AppHeader>, body: seq<byte>): Outcome {
    if !c.server || id !in c.streams || c.state.Dead? then Refused
    else if !CanSend(c.streams[id].state) || c.streams[id].sendPending then Refused
    else
      var code := if 100 <= status <= 999 then status else 500;
      var fields := AnswerFields(code, hs);
      var block := EncodeBlock(c.huffman, c.enc, fields);
      if |block| > MAX_RESPONSE_BLOCK then Done(StreamError(c, id, INTERNAL_ERROR))
      else Done(Answer(c.(enc := c.enc.(pending := false)), id, fields, block,
                       if c.streams[id].isHead || code == 204 || code == 304 then [] else body))
  }

  /** The block goes out at once; a body waits in the stream for the windows. */
  function Answer(c: Conn, id: nat, fields: seq<Field>, block: seq<byte>, body: seq<byte>): Conn
    requires id in c.streams
  {
    var s := c.streams[id];
    var c0 := c.(earlyAnswers := if s.complete then c.earlyAnswers else c.earlyAnswers + {id});
    var c1 := EmitBlock(Log(c0, Begin(id, fields, block, body)), id, block, true, body == []);
    var s1 := s.(state := AfterHeadersSent(s.state, body == []));
    if body == [] then
      if s1.state.Closed? then CloseStream(SetStream(c1, id, s1), id) else SetStream(c1, id, s1)
    else Pump(SetStream(c1, id, s1.(body := body, sendOff := 0, sendPending := true)))
  }

  predicate ValidMethod(v: seq<byte>) {
    v != [] && forall i | 0 <= i < |v| :: LowerTchar(if 65 <= v[i] <= 90 then v[i] + 32 else v[i])
  }

  predicate Alpha(c: byte) { 97 <= c <= 122 || 65 <= c <= 90 }

  predicate ValidScheme(v: seq<byte>) {
    && v != [] && Alpha(v[0])
    && forall i | 0 <= i < |v| :: Alpha(v[i]) || Decimals.Digit(v[i]) || v[i] == 43 || v[i] == 45 || v[i] == 46
  }

  predicate RequestOk(c: Conn, fields: seq<Field>, bodySize: nat) {
    && fields != []
    && WellFormed(fields, RequestSection)
    && (DeclaredLength(fields).Some? ==> DeclaredLength(fields).value == bodySize)
    && (forall f | f in fields && f.name == Ascii(":method") :: ValidMethod(f.value) && f.value != Ascii("CONNECT"))
    && (forall f | f in fields && f.name == Ascii(":scheme") :: ValidScheme(f.value))
    && ListSize(fields) <= c.peer.maxHeaderList
  }

  function SendRequest(c: Conn, fields: seq<Field>, body: seq<byte>): Outcome {
    if c.server || !c.state.Active? then Refused
    else if || |fields| > MAX_HEADERS || |body| > MAX_REQUEST_BODY || |c.openIds| >= MAX_STREAMS
            || |c.openIds| >= c.peer.maxStreams || c.lastId >= MAX_ID || c.backlog > MAX_BACKLOG then Refused
    else if !RequestOk(c, fields, |body|) then Refused
    else
      var block := EncodeBlock(c.huffman, c.enc, fields);
      if |block| > MAX_RESPONSE_BLOCK then Refused
      else
        var id := if c.lastId == 0 then 1 else c.lastId + 2;
        var s := Stream(if body == [] then HalfClosedLocal else Open, c.peer.window, LOCAL_WINDOW,
                        body, 0, body != [], IsHeadRequest(fields), false, 0, 0, [], false, 0);
        var c1 := Log(c.(enc := c.enc.(pending := false), lastId := id,
                         streams := c.streams[id := s], openIds := c.openIds + [id]), Opened(id, fields));
        Done(Pump(EmitBlock(Log(c1, Begin(id, fields, block, body)), id, block, true, body == [])))
  }

  function SendRst(c: Conn, id: nat, code: nat): Outcome {
    if id == 0 || (!c.server && id !in c.streams) then Refused else Done(StreamError(c, id, code))
  }

  function SendGoaway(c: Conn, code: nat, debug: seq<byte>): Outcome {
    if c.state.Dead? then Refused
    else if !c.server && c.backlog > MAX_BACKLOG then Done(ConnError(c, ENHANCE_YOUR_CALM))
    else
      var c1 := SayGoaway(c, code, debug[..Min(|debug|, LOCAL_MAX_FRAME - 8)]);
      Done(if code != NO_ERROR then ResetAll(c1.(error := code, state := Dead), code)
           else if c1.state.Active? then c1.(state := GoawaySent)
           else c1)
  }

  function Commit(c: Conn, n: nat): Conn {
    var c1 := c.(backlog := c.backlog - Min(n, c.backlog));
    if !c.server && !c.state.Dead? then Pump(c1) else c1
  }

  // ---- receiving ----

  function HandleFrame(c0: Conn, f: Frame): Conn {
    var c := Log(c0, In(f));
    if !c.server && c.backlog > MAX_BACKLOG then ConnError(c, ENHANCE_YOUR_CALM)
    else if !c.firstSeen && (f.kind != SETTINGS || Bit0(f.flags)) then ConnError(c.(firstSeen := true), PROTOCOL_ERROR)
    else Dispatch(c.(firstSeen := true), f)
  }

  function Dispatch(c: Conn, f: Frame): Conn {
    if c.assembly.id != 0 && f.kind != CONTINUATION then ConnError(c, PROTOCOL_ERROR)
    else if f.kind == DATA then HandleData(c, f)
    else if f.kind == HEADERS then HandleHeaders(c, f)
    else if f.kind == PRIORITY then HandlePriority(c, f)
    else if f.kind == RST_STREAM then HandleRst(c, f)
    else if f.kind == SETTINGS then HandleSettings(c, f)
    else if f.kind == PUSH_PROMISE then ConnError(c, PROTOCOL_ERROR)
    else if f.kind == PING then HandlePing(c, f)
    else if f.kind == GOAWAY then HandleGoaway(c, f)
    else if f.kind == WINDOW_UPDATE then HandleWindowUpdate(c, f)
    else if f.kind == CONTINUATION then HandleContinuation(c, f)
    else c
  }

  function Low31(p: seq<byte>): nat
    requires |p| >= 4
  {
    GetU32(p[..4]) % TWO31
  }

  function HandlePing(c: Conn, f: Frame): Conn {
    if f.id != 0 then ConnError(c, PROTOCOL_ERROR)
    else if |f.payload| != 8 then ConnError(c, FRAME_SIZE_ERROR)
    else if Bit0(f.flags) then c
    else if c.backlog > MAX_BACKLOG then ConnError(c, ENHANCE_YOUR_CALM)
    else Emit(c, Frame(PING, 1, 0, f.payload))
  }

  function HandlePriority(c: Conn, f: Frame): Conn {
    if f.id == 0 then ConnError(c, PROTOCOL_ERROR)
    else if |f.payload| != 5 then StreamError(c, f.id, FRAME_SIZE_ERROR)
    else if Low31(f.payload) == f.id then StreamError(c, f.id, PROTOCOL_ERROR)
    else c
  }

  function HandleRst(c: Conn, f: Frame): Conn {
    if f.id == 0 then ConnError(c, PROTOCOL_ERROR)
    else if |f.payload| != 4 then ConnError(c, FRAME_SIZE_ERROR)
    else if IsIdle(c, f.id) then ConnError(c, PROTOCOL_ERROR)
    else if f.id !in c.streams then c
    else CloseStream(if c.server then c else Notify(c, ResetEvent, f.id, GetU32(f.payload), [], [], false), f.id)
  }

  /** Streams above the cutoff were not processed by the peer; each is reset, in the order of the snapshot. */
  function ResetAbove(c: Conn, ids: seq<nat>, cutoff: nat): Conn
    decreases |ids|
  {
    if ids == [] then c
    else if ids[0] <= cutoff then ResetAbove(c, ids[1..], cutoff)
    else ResetAbove(CloseStream(Notify(c, ResetEvent, ids[0], NO_ERROR, [], [], false), ids[0]), ids[1..], cutoff)
  }

  function HandleGoaway(c: Conn, f: Frame): Conn {
    if f.id != 0 then ConnError(c, PROTOCOL_ERROR)
    else if |f.payload| < 8 then ConnError(c, FRAME_SIZE_ERROR)
    else
      var c1 := if c.state.Active? then c.(state := GoawayReceived) else c;
      if c1.server then c1
      else
        var code := GetU32(f.payload[4..8]);
        if code != NO_ERROR then ResetAll(c1, code)
        else
          var cutoff := Min(c1.goawayIn, Low31(f.payload));
          ResetAbove(c1.(goawayIn := cutoff), c1.openIds, cutoff)
  }

  function HandleWindowUpdate(c: Conn, f: Frame): Conn {
    if |f.payload| != 4 then ConnError(c, FRAME_SIZE_ERROR)
    else
      var inc := Low31(f.payload);
      if f.id == 0 then
        if inc == 0 then ConnError(c, PROTOCOL_ERROR)
        else if c.sendWindow + inc > MAX_WINDOW then ConnError(c, FLOW_CONTROL_ERROR)
        else Pump(c.(sendWindow := c.sendWindow + inc))
      else if IsIdle(c, f.id) then ConnError(c, PROTOCOL_ERROR)
      else if f.id !in c.streams then c
      else if inc == 0 then StreamError(c, f.id, PROTOCOL_ERROR)
      else
        var s := c.streams[f.id];
        if s.sendWindow + inc > MAX_WINDOW then StreamError(c, f.id, FLOW_CONTROL_ERROR)
        else Pump(SetStream(c, f.id, s.(sendWindow := s.sendWindow + inc)))
  }

  // ---- SETTINGS ----

  datatype Adjusted = Adjusted(ok: bool, streams: map<nat, Stream>)

  /** Section 6.9.2: the change applies to every open stream, up to the first that would overflow. */
  function Adjust(streams: map<nat, Stream>, ids: seq<nat>, delta: int): Adjusted {
    if ids == [] then Adjusted(true, streams)
    else if ids[0] !in streams then Adjust(streams, ids[1..], delta)
    else
      var s := streams[ids[0]];
      if s.sendWindow + delta > MAX_WINDOW then Adjusted(false, streams)
      else Adjust(streams[ids[0] := s.(sendWindow := s.sendWindow + delta)], ids[1..], delta)
  }

  function ApplyWindow(c: Conn, v: nat): Conn {
    if v > MAX_WINDOW then ConnError(c, FLOW_CONTROL_ERROR)
    else
      var adjusted := Adjust(c.streams, c.openIds, v - c.peer.window);
      if adjusted.ok then c.(streams := adjusted.streams, peer := c.peer.(window := v))
      else ConnError(c.(streams := adjusted.streams), FLOW_CONTROL_ERROR)
  }

  function ApplySetting(c: Conn, id: nat, v: nat): Conn {
    if id == 1 then c.(peer := c.peer.(tableSize := v), enc := Announce(c.enc, v))
    else if id == 2 then
      if !c.server || v > 1 then ConnError(c, PROTOCOL_ERROR) else c.(peer := c.peer.(push := v == 1))
    else if id == 3 then c.(peer := c.peer.(maxStreams := v))
    else if id == 4 then ApplyWindow(c, v)
    else if id == 5 then
      if v < 16384 || v > 16777215 then ConnError(c, PROTOCOL_ERROR) else c.(peer := c.peer.(maxFrame := v))
    else if id == 6 then c.(peer := c.peer.(maxHeaderList := v))
    else c
  }

  function ApplySettings(c: Conn, payload: seq<byte>): Conn
    requires |payload| % 6 == 0
    decreases |payload|
  {
    if payload == [] then c
    else
      var c1 := ApplySetting(c, GetU16(payload[..2]), GetU32(payload[2..6]));
      if c1.state.Dead? then c1 else ApplySettings(c1, payload[6..])
  }

  function HandleSettings(c: Conn, f: Frame): Conn {
    if f.id != 0 then ConnError(c, PROTOCOL_ERROR)
    else if Bit0(f.flags) then
      if |f.payload| != 0 then ConnError(c, FRAME_SIZE_ERROR) else c
    else if |f.payload| % 6 != 0 then ConnError(c, FRAME_SIZE_ERROR)
    else
      var c1 := ApplySettings(c, f.payload);
      if c1.state.Dead? then c1
      else if c1.backlog > MAX_BACKLOG then ConnError(c1, ENHANCE_YOUR_CALM)
      else Pump(Emit(c1, Frame(SETTINGS, 1, 0, [])))
  }

  // ---- header blocks ----

  datatype Fragment = BadFragment(code: nat) | Fragment(bytes: seq<byte>, selfDependent: bool)

  /** Padding and priority fields stripped from a HEADERS payload. */
  function FragmentOf(f: Frame): Fragment {
    var p := f.payload;
    if Bit3(f.flags) && |p| < 1 then BadFragment(FRAME_SIZE_ERROR)
    else
      var pad := if Bit3(f.flags) then p[0] else 0;
      var off := if Bit3(f.flags) then 1 else 0;
      if Bit5(f.flags) && |p| < off + 5 then BadFragment(FRAME_SIZE_ERROR)
      else
        var start := if Bit5(f.flags) then off + 5 else off;
        if start + pad > |p| then BadFragment(PROTOCOL_ERROR)
        else Fragment(p[start..|p| - pad], Bit5(f.flags) && Low31(p[off..]) == f.id)
  }

  function HandleHeaders(c: Conn, f: Frame): Conn {
    if f.id == 0 then ConnError(c, PROTOCOL_ERROR)
    else
      match FragmentOf(f)
      case BadFragment(code) => ConnError(c, code)
      case Fragment(bytes, selfDependent) =>
        var a := Assembly(f.id, Bit0(f.flags), selfDependent, bytes);
        if Bit2(f.flags) then FinishBlock(c, a) else c.(assembly := a)
  }

  function HandleContinuation(c: Conn, f: Frame): Conn {
    var a := c.assembly;
    if a.id == 0 || f.id != a.id then ConnError(c, PROTOCOL_ERROR)
    else if |a.bytes| + |f.payload| > MAX_HEADER_BLOCK then ConnError(c, ENHANCE_YOUR_CALM)
    else
      var a1 := a.(bytes := a.bytes + f.payload);
      if Bit2(f.flags) then FinishBlock(c.(assembly := NO_ASSEMBLY), a1) else c.(assembly := a1)
  }

  /** The decoder sees every completed block before anything else is decided. */
  function FinishBlock(c: Conn, a: Assembly): Conn {
    var decoded := DecodeBlock(c.huffman, c.dec, a.bytes, false);
    var c1 := c.(dec := decoded.st);
    if !decoded.ok then ConnError(c1, COMPRESSION_ERROR)
    else
      var tooMany := |decoded.fields| > MAX_HEADERS;
      var fields := if tooMany then decoded.fields[..MAX_HEADERS] else decoded.fields;
      if c.server then FinishRequestBlock(c1, a, fields, tooMany) else FinishResponseBlock(c1, a, fields, tooMany)
  }

  function FinishRequestBlock(c: Conn, a: Assembly, fields: seq<Field>, tooMany: bool): Conn {
    if a.id !in c.streams then
      if a.id % 2 == 0 then ConnError(c, PROTOCOL_ERROR)
      else if a.id <= c.lastId then ConnError(c, if RecentlyClosed(c, a.id) then STREAM_CLOSED else PROTOCOL_ERROR)
      else
        var c1 := c.(lastId := a.id);
        if !c.state.Active? then StreamError(c1, a.id, REFUSED_STREAM)
        else if a.selfDependent then StreamError(c1, a.id, PROTOCOL_ERROR)
        else if tooMany || |c.openIds| >= MAX_STREAMS then StreamError(c1, a.id, REFUSED_STREAM)
        else if !WellFormed(fields, RequestSection) then StreamError(c1, a.id, PROTOCOL_ERROR)
        else OpenStream(c1, a.id, a.end, fields)
    else if a.selfDependent then StreamError(c, a.id, PROTOCOL_ERROR)
    else
      var s := c.streams[a.id];
      if !CanReceive(s.state) then StreamError(c, a.id, STREAM_CLOSED)
      else if !a.end || tooMany || !WellFormed(fields, RequestTrailers) then StreamError(c, a.id, PROTOCOL_ERROR)
      else CompleteRequest(c, a.id, s.(state := AfterHeadersReceived(s.state, true)))
  }

  function OpenStream(c: Conn, id: nat, end: bool, fields: seq<Field>): Conn {
    var length := DeclaredLength(fields);
    var s := Stream(AfterHeadersReceived(Idle, end), c.peer.window, LOCAL_WINDOW, [], 0, false,
                    IsHeadRequest(fields), length.Some?, if length.Some? then length.value else 0, 0, [], false, 0);
    var c1 := Log(c.(streams := c.streams[id := s], openIds := c.openIds + [id], acceptedId := id), Opened(id, fields));
    if end then CompleteRequest(c1, id, s) else c1
  }

  /** The request has ended: s is the stream as it then stands. */
  function CompleteRequest(c: Conn, id: nat, s: Stream): Conn {
    if s.hasLength && s.received != s.length then StreamError(c, id, PROTOCOL_ERROR)
    else Log(SetStream(c, id, s.(complete := true)), Request(id, s.content))
  }

  function FinishResponseBlock(c: Conn, a: Assembly, fields: seq<Field>, tooMany: bool): Conn {
    if IsIdle(c, a.id) then ConnError(c, PROTOCOL_ERROR)
    else if a.id !in c.streams || !CanReceive(c.streams[a.id].state) then StreamError(c, a.id, STREAM_CLOSED)
    else if a.selfDependent || tooMany then StreamError(c, a.id, PROTOCOL_ERROR)
    else if c.streams[a.id].status != 0 then ResponseTrailer(c, a, fields)
    else ResponseHead(c, a, fields)
  }

  function ResponseTrailer(c: Conn, a: Assembly, fields: seq<Field>): Conn
    requires a.id in c.streams
  {
    if !WellFormed(fields, ResponseTrailers) || !a.end || DeclaredLength(fields).Some? then StreamError(c, a.id, PROTOCOL_ERROR)
    else
      var s := c.streams[a.id];
      var s1 := s.(state := AfterHeadersReceived(s.state, true));
      CompleteResponse(Notify(SetStream(c, a.id, s1), TrailersEvent, a.id, NO_ERROR, fields, [], true), a.id, s1)
  }

  /** The stream once the final or informational status is known. */
  function HeadStream(s: Stream, fields: seq<Field>): Stream {
    var status, length := StatusOf(fields), DeclaredLength(fields);
    s.(status := status, hasLength := length.Some? && !s.isHead && status != 304,
       length := if length.Some? then length.value else 0)
  }

  predicate HeadOk(a: Assembly, fields: seq<Field>) {
    var status, length := StatusOf(fields), DeclaredLength(fields);
    && WellFormed(fields, ResponseSection)
    && !(status < 200 && (status == 101 || a.end || length.Some?))
    && !(status == 204 && length.Some?)
  }

  function ResponseHead(c: Conn, a: Assembly, fields: seq<Field>): Conn
    requires a.id in c.streams
  {
    if !HeadOk(a, fields) then StreamError(c, a.id, PROTOCOL_ERROR)
    else
      var s := HeadStream(c.streams[a.id], fields);
      var c1 := Notify(SetStream(c, a.id, s), HeadersEvent, a.id, NO_ERROR, fields, [], a.end);
      if s.status < 200 then SetStream(c1, a.id, s.(status := 0))
      else if a.end then CompleteResponse(c1, a.id, s.(state := AfterHeadersReceived(s.state, true)))
      else c1
  }

  /** The response has ended: s is the stream as it then stands. A request still uploading is cut off. */
  function CompleteResponse(c: Conn, id: nat, s: Stream): Conn {
    if s.hasLength && s.length != s.received then StreamError(c, id, PROTOCOL_ERROR)
    else
      var c1 := if s.state.Closed? then c else Emit(c, RstFrame(id, NO_ERROR));
      CloseStream(Notify(c1, CompleteEvent, id, NO_ERROR, [], [], true), id)
  }

  // ---- DATA ----

  function WindowFrame(id: nat, inc: nat): Frame { Frame(WINDOW_UPDATE, 0, id, PutU32(inc)) }

  function ReplenishConn(c: Conn): Conn {
    if c.recvWindow <= LOCAL_WINDOW / 2
    then Emit(c.(recvWindow := LOCAL_WINDOW), WindowFrame(0, LOCAL_WINDOW - c.recvWindow))
    else c
  }

  function ReplenishStream(c: Conn, id: nat): Conn
    requires id in c.streams
  {
    var s := c.streams[id];
    if s.recvWindow <= LOCAL_WINDOW / 2
    then Emit(SetStream(c, id, s.(recvWindow := LOCAL_WINDOW)), WindowFrame(id, LOCAL_WINDOW - s.recvWindow))
    else c
  }

  /** Pad octets of a DATA frame, None if the padding is malformed. */
  function DataBytes(f: Frame): Option<seq<byte>> {
    if !Bit3(f.flags) then Some(f.payload)
    else if |f.payload| < 1 || f.payload[0] >= |f.payload| then None
    else Some(f.payload[1..|f.payload| - f.payload[0]])
  }

  function HandleData(c: Conn, f: Frame): Conn {
    var n := |f.payload|;
    if f.id == 0 then ConnError(c, PROTOCOL_ERROR)
    else if n > c.recvWindow then ConnError(c, FLOW_CONTROL_ERROR)
    else
      var c1 := ReplenishConn(c.(recvWindow := c.recvWindow - n));
      if Bit3(f.flags) && n < 1 then ConnError(c1, FRAME_SIZE_ERROR)
      else if DataBytes(f).None? || IsIdle(c1, f.id) then ConnError(c1, PROTOCOL_ERROR)
      else if f.id !in c1.streams || !CanReceive(c1.streams[f.id].state) then StreamError(c1, f.id, STREAM_CLOSED)
      else if n > c1.streams[f.id].recvWindow then StreamError(c1, f.id, FLOW_CONTROL_ERROR)
      else TakeData(c1, f, DataBytes(f).value)
  }

  /** The flow-controlled payload has been accepted; data is its unpadded part. */
  function TakeData(c: Conn, f: Frame, data: seq<byte>): Conn
    requires f.id in c.streams
  {
    var s := c.streams[f.id];
    var received := s.received + |data|;
    if !c.server && received > c.maxBody then StreamError(c, f.id, ENHANCE_YOUR_CALM)
    else if s.hasLength && received > s.length then StreamError(c, f.id, PROTOCOL_ERROR)
    else if received > c.maxBody then StreamError(c, f.id, ENHANCE_YOUR_CALM)
    else if !c.server && (s.status == 0 || (data != [] && (s.isHead || s.status == 204 || s.status == 304)))
    then StreamError(c, f.id, PROTOCOL_ERROR)
    else
      var end := Bit0(f.flags);
      var s1 := s.(recvWindow := s.recvWindow - |f.payload|, received := received,
                   content := if c.server then s.content + data else s.content,
                   state := AfterDataReceived(s.state, end));
      var c1 := SetStream(c, f.id, s1);
      var c2 := if c.server || data == [] then c1 else Notify(c1, DataEvent, f.id, NO_ERROR, [], data, end);
      if !end then ReplenishStream(c2, f.id)
      else if c.server then CompleteRequest(c2, f.id, s1)
      else CompleteResponse(c2, f.id, s1)
  }

  // ---- construction and runs ----

  function SettingBytes(id: nat, v: nat): seq<byte> { [0, id % 256] + PutU32(v) }

  function LocalSettings(server: bool): Frame {
    Frame(SETTINGS, 0, 0,
          SettingBytes(1, TABLE_BYTES) + SettingBytes(3, MAX_STREAMS) + SettingBytes(4, LOCAL_WINDOW)
          + SettingBytes(5, LOCAL_MAX_FRAME) + SettingBytes(6, MAX_HEADER_LIST)
          + (if server then [] else SettingBytes(2, 0)))
  }

  const PREFACE: seq<byte> := Ascii("PRI * HTTP/2.0\r\n\r\nSM\r\n\r\n")

  function Init(server: bool, huffman: Huffman, maxBody: nat): Conn {
    var peer := Peer(4096, true, 0xFFFF_FFFF, 65535, 16384, 0xFFFF_FFFF);
    var table := DecState([], TABLE_BYTES, TABLE_BYTES);
    Emit(Conn(server, huffman, maxBody, if server then PrefacePending else Active, false, NO_ERROR,
              peer, 65535, LOCAL_WINDOW, map[], [], 0, 0, [], MAX_ID, MAX_ID,
              EncState(TABLE_BYTES, TABLE_BYTES, false), table, NO_ASSEMBLY,
              if server then 0 else |PREFACE|, Empty, {}, {}, false),
         LocalSettings(server))
  }

  /** What can happen to a connection, at frame granularity. */
  datatype Step =
    | Prefaced                                       // the last octet of the client preface arrived
    | Arrive(frame: Frame)                           // a whole frame within the local size limit arrived
    | Violate(code: nat)                             // process_input itself raised a connection error
    | Respond(id: nat, status: nat, headers: seq<AppHeader>, body: seq<byte>)
    | Ask(fields: seq<Field>, body: seq<byte>)
    | Reset(id: nat, code: nat)
    | Goaway(code: nat, debug: seq<byte>)
    | Drain(n: nat)

  predicate Enabled(c: Conn, step: Step) {
    match step
    case Prefaced => c.state.PrefacePending?
    case Arrive(f) => !c.state.Dead? && !c.state.PrefacePending? && f.id < TWO31 && |f.payload| <= LOCAL_MAX_FRAME
    case Violate(code) => !c.state.Dead? && (code == PROTOCOL_ERROR || code == FRAME_SIZE_ERROR)
    case Respond(_, _, _, _) => true
    case Ask(_, _) => true
    case Reset(id, code) => id < TWO31 && code < TWO32
    case Goaway(code, _) => code < TWO32
    case Drain(n) => true
  }

  function Keep(c: Conn, o: Outcome): Conn { if o.Done? then o.c else c }

  function Take(c: Conn, step: Step): Conn {
    match step
    case Prefaced => c.(state := Active)
    case Arrive(f) => HandleFrame(c, f)
    case Violate(code) => ConnError(c, code)
    case Respond(id, status, headers, body) => Keep(c, SendResponse(c, id, status, headers, body))
    case Ask(fields, body) => Keep(c, SendRequest(c, fields, body))
    case Reset(id, code) => Keep(c, SendRst(c, id, code))
    case Goaway(code, debug) => Keep(c, SendGoaway(c, code, debug))
    case Drain(n) => Commit(c, n)
  }

  function After(c: Conn, steps: seq<Step>): Conn
    decreases |steps|
  {
    if steps == [] then c else After(Take(c, steps[0]), steps[1..])
  }

  /** Each step is one the connection could take where it was taken. */
  predicate Legal(c: Conn, steps: seq<Step>)
    decreases |steps|
  {
    steps == [] || (Enabled(c, steps[0]) && Legal(Take(c, steps[0]), steps[1..]))
  }
}
