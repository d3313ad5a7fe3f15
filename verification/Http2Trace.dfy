/** What a trace says about flow control, framing, settings, header blocks, requests, responses and shutdown. */
module Http2Trace {
  import opened Bytes
  import opened HpackSpec
  import opened Http2Frames
  import opened Http2Fields
  import opened Http2Spec

  // ---- flow control: octets and increments on a stream, or on the connection ----

  /** Send credit the peer granted to stream id (0 is the connection). */
  function Granted(t: Trace, id: nat): nat {
    match t
    case Empty => 0
    case Then(before, e) =>
      Granted(before, id)
      + (if e.In? && e.frame.kind == WINDOW_UPDATE && e.frame.id == id && |e.frame.payload| == 4 then Low31(e.frame.payload) else 0)
  }

  /** DATA octets we sent on stream id. */
  function Sent(t: Trace, id: nat): nat {
    match t
    case Empty => 0
    case Then(before, e) => Sent(before, id) + (if e.Out? && e.frame.kind == DATA && e.frame.id == id then |e.frame.payload| else 0)
  }

  function SentAll(t: Trace): nat {
    match t
    case Empty => 0
    case Then(before, e) => SentAll(before) + (if e.Out? && e.frame.kind == DATA then |e.frame.payload| else 0)
  }

  /** Receive credit we granted to the peer on stream id (0 is the connection). */
  function Returned(t: Trace, id: nat): nat {
    match t
    case Empty => 0
    case Then(before, e) =>
      Returned(before, id)
      + (if e.Out? && e.frame.kind == WINDOW_UPDATE && e.frame.id == id && |e.frame.payload| == 4 then Low31(e.frame.payload) else 0)
  }

  /** DATA octets, padding included, that arrived for stream id. */
  function Taken(t: Trace, id: nat): nat {
    match t
    case Empty => 0
    case Then(before, e) => Taken(before, id) + (if e.In? && e.frame.kind == DATA && e.frame.id == id then |e.frame.payload| else 0)
  }

  function TakenAll(t: Trace): nat {
    match t
    case Empty => 0
    case Then(before, e) => TakenAll(before) + (if e.In? && e.frame.kind == DATA then |e.frame.payload| else 0)
  }

  // ---- the peer's settings ----

  function LastIn(payload: seq<byte>, id: nat, d: nat): nat
    requires |payload| % 6 == 0
    decreases |payload|
  {
    if payload == [] then d
    else LastIn(payload[6..], id, if GetU16(payload[..2]) == id then GetU32(payload[2..6]) else d)
  }

  /** The value of a setting the peer announced last, d if it never did. */
  function PeerSetting(t: Trace, id: nat, d: nat): nat {
    match t
    case Empty => d
    case Then(before, e) =>
      if e.In? && e.frame.kind == SETTINGS && !Bit0(e.frame.flags) && |e.frame.payload| % 6 == 0
      then LastIn(e.frame.payload, id, PeerSetting(before, id, d))
      else PeerSetting(before, id, d)
  }

  /** The largest payload the peer accepts; sizes it may not announce do not count. */
  function FrameLimit(t: Trace): (n: nat)
    ensures n >= LOCAL_MAX_FRAME
  {
    var v := PeerSetting(t, 5, LOCAL_MAX_FRAME);
    if v < LOCAL_MAX_FRAME then LOCAL_MAX_FRAME else v
  }

  // ---- header blocks that arrived ----

  datatype Blocks = Blocks(open: nat, partial: seq<byte>, done: seq<seq<byte>>)

  function BlocksOf(t: Trace): Blocks {
    match t
    case Empty => Blocks(0, [], [])
    case Then(before, e) =>
      var b := BlocksOf(before);
      if !e.In? then b
      else if e.frame.kind == HEADERS && b.open == 0 && FragmentOf(e.frame).Fragment? then
        var bytes := FragmentOf(e.frame).bytes;
        if Bit2(e.frame.flags) then Blocks(0, [], b.done + [bytes]) else Blocks(e.frame.id, bytes, b.done)
      else if e.frame.kind == CONTINUATION && b.open != 0 && e.frame.id == b.open then
        var bytes := b.partial + e.frame.payload;
        if Bit2(e.frame.flags) then Blocks(0, [], b.done + [bytes]) else b.(partial := bytes)
      else b
  }

  /** A decoder fed these blocks one after the other. */
  function DecodeAll(h: Huffman, st: DecState, blocks: seq<seq<byte>>): DecState {
    if blocks == [] then st
    else DecodeBlock(h, DecodeAll(h, st, blocks[..|blocks| - 1]), blocks[|blocks| - 1], false).st
  }

  // ---- what we sent ----

  function FirstOut(t: Trace): Option<Frame> {
    match t
    case Empty => None
    case Then(before, e) => if FirstOut(before).None? && e.Out? then Some(e.frame) else FirstOut(before)
  }

  /** Every frame fitted the peer's limit when it was queued. */
  ghost predicate SizesOk(t: Trace) {
    match t
    case Empty => true
    case Then(before, e) => SizesOk(before) && (e.Out? ==> |e.frame.payload| <= FrameLimit(before) && |e.frame.payload| <= MAX_PAYLOAD)
  }

  /** The stream whose header block is still being sent, 0 if none. */
  function OpenBlock(t: Trace): nat {
    match t
    case Empty => 0
    case Then(before, e) =>
      if e.Out? && (e.frame.kind == HEADERS || e.frame.kind == CONTINUATION)
      then (if Bit2(e.frame.flags) then 0 else e.frame.id)
      else OpenBlock(before)
  }

  /** A header block is one unbroken run: nothing is queued between its frames. */
  ghost predicate Unbroken(t: Trace) {
    match t
    case Empty => true
    case Then(before, e) =>
      && Unbroken(before)
      && (e.Out? ==> if OpenBlock(before) == 0 then e.frame.kind != CONTINUATION
                     else e.frame.kind == CONTINUATION && e.frame.id == OpenBlock(before))
  }

  /** Where the sending half of a stream stands. Cut: reset. Bad: something was sent that must not be. */
  datatype Phase =
    | Fresh
    | Due(block: seq<byte>, body: seq<byte>)
    | Heading(left: seq<byte>, body: seq<byte>)
    | Body(sent: nat, body: seq<byte>)
    | Ended | Cut | Bad

  /** After a HEADERS or CONTINUATION frame that carries the start of left. */
  function OnHeading(left: seq<byte>, body: seq<byte>, payload: seq<byte>, last: bool): Phase {
    if !(payload <= left) || last != (payload == left) then Bad
    else if !last then Heading(left[|payload|..], body)
    else if body == [] then Ended
    else Body(0, body)
  }

  function OnData(sent: nat, body: seq<byte>, payload: seq<byte>, end: bool): Phase {
    if sent + |payload| > |body| || payload != body[sent..sent + |payload|] then Bad
    else if end then (if sent + |payload| == |body| then Ended else Bad)
    else Body(sent + |payload|, body)
  }

  /** Read leniently, the reset of a stream that has sent nothing is passed over. */
  function OnOut(p: Phase, f: Frame, strict: bool): Phase {
    if p.Bad? then Bad
    else if f.kind == RST_STREAM then (if p.Due? || p.Heading? then Bad else if p.Fresh? && !strict then Fresh else Cut)
    else if f.kind == HEADERS then
      if p.Due? && (Bit0(f.flags) <==> p.body == []) then OnHeading(p.block, p.body, f.payload, Bit2(f.flags)) else Bad
    else if f.kind == CONTINUATION then
      if p.Heading? then OnHeading(p.left, p.body, f.payload, Bit2(f.flags)) else Bad
    else if f.kind == DATA then
      if p.Body? then OnData(p.sent, p.body, f.payload, Bit0(f.flags)) else Bad
    else p
  }

  function PhaseOf(t: Trace, id: nat, strict: bool): Phase {
    match t
    case Empty => Fresh
    case Then(before, e) =>
      var p := PhaseOf(before, id, strict);
      if e.Out? && e.frame.id == id then OnOut(p, e.frame, strict)
      else if e.Begin? && e.id == id then (if p.Fresh? then Due(e.block, e.body) else Bad)
      else p
  }

  predicate ResetSent(t: Trace, id: nat) {
    match t
    case Empty => false
    case Then(before, e) => (e.Out? && e.frame.id == id && e.frame.kind == RST_STREAM) || ResetSent(before, id)
  }

  /** Responses, or for a client requests, that were started on id. */
  function Begun(t: Trace, id: nat): nat {
    match t
    case Empty => 0
    case Then(before, e) => Begun(before, id) + (if e.Begin? && e.id == id then 1 else 0)
  }

  // ---- streams and requests ----

  function FieldsOf(t: Trace, id: nat): Option<seq<Field>> {
    match t
    case Empty => None
    case Then(before, e) => if e.Opened? && e.id == id then Some(e.fields) else FieldsOf(before, id)
  }

  function Highest(t: Trace): nat {
    match t
    case Empty => 0
    case Then(before, e) => if e.Opened? && e.id > Highest(before) then e.id else Highest(before)
  }

  /** Ids are used in increasing order, so none is opened twice. */
  ghost predicate OpensIncrease(t: Trace) {
    match t
    case Empty => true
    case Then(before, e) => OpensIncrease(before) && (e.Opened? ==> e.id > Highest(before))
  }

  predicate Requested(t: Trace, id: nat) {
    match t
    case Empty => false
    case Then(before, e) => (e.Request? && e.id == id) || Requested(before, id)
  }

  /** The unpadded DATA payloads that arrived for id, in order. */
  function Content(t: Trace, id: nat): seq<byte> {
    match t
    case Empty => []
    case Then(before, e) =>
      if e.In? && e.frame.kind == DATA && e.frame.id == id && DataBytes(e.frame).Some?
      then Content(before, id) + DataBytes(e.frame).value
      else Content(before, id)
  }

  /** A DATA or HEADERS frame with END_STREAM has arrived on id. */
  predicate EndReceived(t: Trace, id: nat) {
    match t
    case Empty => false
    case Then(before, e) =>
      || (e.In? && e.frame.id == id && (e.frame.kind == DATA || e.frame.kind == HEADERS) && Bit0(e.frame.flags))
      || EndReceived(before, id)
  }

  predicate ResetReceived(t: Trace, id: nat) {
    match t
    case Empty => false
    case Then(before, e) => (e.In? && e.frame.id == id && e.frame.kind == RST_STREAM) || ResetReceived(before, id)
  }

  /** The data a client's callback was given for id, in order. */
  function Heard(t: Trace, id: nat): seq<byte> {
    match t
    case Empty => []
    case Then(before, e) =>
      if e.Event? && e.response.id == id && e.response.kind.DataEvent?
      then Heard(before, id) + e.response.data
      else Heard(before, id)
  }

  /** Requests and responses are reported complete only once END_STREAM has arrived, a response after all of its data. */
  ghost predicate ReportsEnded(t: Trace) {
    match t
    case Empty => true
    case Then(before, e) =>
      && ReportsEnded(before)
      && (e.Request? ==> EndReceived(before, e.id))
      && (e.Event? && e.response.kind.CompleteEvent? ==>
            EndReceived(before, e.response.id) && Heard(before, e.response.id) == Content(before, e.response.id))
  }

  /** No request is reported twice; each with the content that arrived, within the limit and as long as it declared. */
  ghost predicate RequestsOk(t: Trace, maxBody: nat) {
    match t
    case Empty => true
    case Then(before, e) =>
      && RequestsOk(before, maxBody)
      && (e.Request? ==>
            && !Requested(before, e.id)
            && e.content == Content(before, e.id) && |e.content| <= maxBody
            && FieldsOf(before, e.id).Some?
            && (DeclaredLength(FieldsOf(before, e.id).value).Some? ==>
                  DeclaredLength(FieldsOf(before, e.id).value).value == |e.content|))
  }

  // ---- responses, as a client's callback sees them ----

  datatype Progress =
    | Waiting
    | Receiving(status: nat, declared: Option<nat>, bytes: nat, trailers: bool)
    | Over | Broken

  function OnEvent(p: Progress, r: Response, head: bool): Progress {
    match r.kind
    case ResetEvent => if p.Waiting? || p.Receiving? then Over else Broken
    case HeadersEvent =>
      if !p.Waiting? then Broken
      else if 100 <= r.status < 200 then (if r.end then Broken else Waiting)
      else if r.status >= 200 then Receiving(r.status, if head || r.status == 304 then None else DeclaredLength(r.fields), 0, false)
      else Broken
    case DataEvent => if p.Receiving? && !p.trailers && r.data != [] then p.(bytes := p.bytes + |r.data|) else Broken
    case TrailersEvent => if p.Receiving? && !p.trailers && r.end then p.(trailers := true) else Broken
    case CompleteEvent => if p.Receiving? && (p.declared.None? || p.declared.value == p.bytes) then Over else Broken
  }

  predicate HeadOf(t: Trace, id: nat) { FieldsOf(t, id).Some? && IsHeadRequest(FieldsOf(t, id).value) }

  function ProgressOf(t: Trace, id: nat): Progress {
    match t
    case Empty => Waiting
    case Then(before, e) =>
      if e.Event? && e.response.id == id
      then (if FieldsOf(before, id).Some? then OnEvent(ProgressOf(before, id), e.response, HeadOf(before, id)) else Broken)
      else ProgressOf(before, id)
  }

  // ---- GOAWAY ----

  predicate IsGoaway(e: Entry) { e.Out? && e.frame.kind == GOAWAY && |e.frame.payload| >= 8 }

  /** The cutoff sent last. */
  function Cutoff(t: Trace): nat {
    match t
    case Empty => MAX_ID
    case Then(before, e) => if IsGoaway(e) then Low31(e.frame.payload) else Cutoff(before)
  }

  predicate Announced(t: Trace) {
    match t
    case Empty => false
    case Then(before, e) => IsGoaway(e) || Announced(before)
  }

  /** Highest stream the peer opened and we accepted. */
  function PeerHighest(server: bool, t: Trace): nat { if server then Highest(t) else 0 }

  /** Cutoffs never grow and never name a stream that was not accepted. */
  ghost predicate CutoffsOk(server: bool, t: Trace) {
    match t
    case Empty => true
    case Then(before, e) =>
      && CutoffsOk(server, before)
      && (IsGoaway(e) ==> Low31(e.frame.payload) <= Cutoff(before) && Low31(e.frame.payload) <= PeerHighest(server, before))
  }

  /** Each cutoff is the highest accepted stream, and no stream is accepted after one was sent. */
  ghost predicate CutoffsExact(server: bool, t: Trace) {
    match t
    case Empty => true
    case Then(before, e) =>
      && CutoffsExact(server, before)
      && (IsGoaway(e) ==> Low31(e.frame.payload) == PeerHighest(server, before))
      && (server && e.Opened? ==> !Announced(before))
  }
}
