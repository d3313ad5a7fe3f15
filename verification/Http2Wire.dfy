/** The octets of what was queued, and that they parse back to whole frames. */
module Http2Wire {
  import opened Bytes
  import opened Http2Frames
  import opened Http2Spec
  import opened Http2Trace
  import opened Http2Reach
  import opened Http2Theorems

  function OutBytes(t: Trace): seq<byte> {
    match t
    case Empty => []
    case Then(before, e) => if e.Out? then OutBytes(before) + EncodeFrame(e.frame) else OutBytes(before)
  }

  /** A client's preface comes before its first frame. */
  function Wire(server: bool, t: Trace): seq<byte> { (if server then [] else PREFACE) + OutBytes(t) }

  /** The frames queued, with identifiers as the 31-bit field carries them. */
  function Queued(t: Trace): seq<Frame> {
    match t
    case Empty => []
    case Then(before, e) => if e.Out? then Queued(before) + [e.frame.(id := e.frame.id % TWO31)] else Queued(before)
  }

  /** The first frame's octets, header included. */
  function FrontLength(b: seq<byte>): (n: nat)
    requires |b| >= HEADER_BYTES
    ensures n >= HEADER_BYTES
  {
    HEADER_BYTES + ParseHeader(b[..HEADER_BYTES]).length
  }

  function FrontFrame(b: seq<byte>): Frame
    requires |b| >= HEADER_BYTES && |b| >= FrontLength(b)
  {
    var h := ParseHeader(b[..HEADER_BYTES]);
    Frame(h.kind, h.flags, h.id, b[HEADER_BYTES..FrontLength(b)])
  }

  /** A stream of octets as frames, if it is made of whole ones. */
  function ParseFrames(b: seq<byte>): Option<seq<Frame>>
    decreases |b|
  {
    if b == [] then Some([])
    else if |b| < HEADER_BYTES || |b| < FrontLength(b) then None
    else
      match ParseFrames(b[FrontLength(b)..])
      case None => None
      case Some(rest) => Some([FrontFrame(b)] + rest)
  }

  lemma ParseFront(b: seq<byte>)
    requires b != []
    ensures ParseFrames(b).Some? <==> |b| >= HEADER_BYTES && |b| >= FrontLength(b) && ParseFrames(b[FrontLength(b)..]).Some?
    ensures ParseFrames(b).Some? ==> ParseFrames(b).value == [FrontFrame(b)] + ParseFrames(b[FrontLength(b)..]).value
  {
    hide FrontLength, FrontFrame;
  }

  lemma FrontStays(a: seq<byte>, b: seq<byte>)
    requires |a| >= HEADER_BYTES && |a| >= FrontLength(a)
    ensures FrontLength(a + b) == FrontLength(a) && FrontFrame(a + b) == FrontFrame(a)
    ensures (a + b)[FrontLength(a)..] == a[FrontLength(a)..] + b
  {
    hide ParseHeader;
    assert (a + b)[..HEADER_BYTES] == a[..HEADER_BYTES];
    assert (a + b)[HEADER_BYTES..FrontLength(a)] == a[HEADER_BYTES..FrontLength(a)];
  }

  lemma {:induction false} ParseJoined(a: seq<byte>, b: seq<byte>)
    requires ParseFrames(a).Some? && ParseFrames(b).Some?
    ensures ParseFrames(a + b) == Some(ParseFrames(a).value + ParseFrames(b).value)
    decreases |a|
  {
    hide ParseFrames, FrontLength, FrontFrame;
    if a == [] {
      NoFrames();
      assert a + b == b && [] + ParseFrames(b).value == ParseFrames(b).value;
    } else {
      ParseFront(a);
      var rest := a[FrontLength(a)..];
      FrontStays(a, b);
      ParseJoined(rest, b);
      ParseFront(a + b);
      Regroup([FrontFrame(a)], ParseFrames(rest).value, ParseFrames(b).value);
    }
  }

  lemma LoneFrame(b: seq<byte>, h: FrameHeader, payload: seq<byte>)
    requires |b| == HEADER_BYTES + h.length && ParseHeader(b[..HEADER_BYTES]) == h && b[HEADER_BYTES..|b|] == payload
    ensures ParseFrames(b) == Some([Frame(h.kind, h.flags, h.id, payload)])
  {
    assert FrontLength(b) == |b| && FrontFrame(b) == Frame(h.kind, h.flags, h.id, payload);
    hide ParseHeader, ParseFrames, FrontFrame, FrontLength;
    assert b[|b|..] == [];
    NoFrames();
    ParseFront(b);
    assert [FrontFrame(b)] + [] == [FrontFrame(b)];
  }

  lemma SameHeader(h: FrameHeader)
    ensures EncodeHeader(h) == EncodeHeader(h.(id := h.id % TWO31))
  {
  }

  lemma OneFrame(f: Frame)
    requires |f.payload| <= MAX_PAYLOAD
    ensures ParseFrames(EncodeFrame(f)) == Some([f.(id := f.id % TWO31)])
  {
    hide EncodeHeader, ParseHeader;
    var h := FrameHeader(|f.payload|, f.kind, f.flags, f.id);
    HeaderRoundTrip(h.(id := f.id % TWO31));
    assert EncodeHeader(h) == EncodeHeader(h.(id := f.id % TWO31)) by { SameHeader(h); }
    var b := EncodeFrame(f);
    assert b[..HEADER_BYTES] == EncodeHeader(h) && b[HEADER_BYTES..|b|] == f.payload;
    assert ParseHeader(b[..HEADER_BYTES]) == h.(id := f.id % TWO31);
    LoneFrame(b, h.(id := f.id % TWO31), f.payload);
  }

  lemma {:induction false} QueuedReparses(t: Trace)
    requires SizesOk(t)
    ensures ParseFrames(OutBytes(t)) == Some(Queued(t))
  {
    hide ParseFrames, FrameLimit;
    if t.Then? {
      QueuedReparses(t.before);
      if t.last.Out? {
        OneFrame(t.last.frame);
        ParseJoined(OutBytes(t.before), EncodeFrame(t.last.frame));
      }
    } else {
      NoFrames();
    }
  }

  lemma NoFrames()
    ensures ParseFrames([]) == Some([])
  {
  }

  /** Whatever a connection has queued is a sequence of whole frames, the local SETTINGS first. */
  lemma OutputReparses(c: Conn)
    requires Reached(c)
    ensures ParseFrames(OutBytes(c.log)) == Some(Queued(c.log))
    ensures Queued(c.log) != [] && Queued(c.log)[0] == LocalSettings(c.server)
  {
    OutputWellFramed(c);
    QueuedReparses(c.log);
    hide Reached, ParseFrames, SizesOk, Unbroken, OpenBlock;
    FirstQueued(c.log);
  }

  lemma {:induction false} FirstQueued(t: Trace)
    ensures FirstOut(t).Some? <==> Queued(t) != []
    ensures FirstOut(t).Some? ==> Queued(t)[0] == FirstOut(t).value.(id := FirstOut(t).value.id % TWO31)
  {
    if t.Then? {
      FirstQueued(t.before);
    }
  }
}
