/** process_input: frames are the same however the octets are cut into reads. */
module Http2Input {
  import opened Bytes
  import opened Http2Frames
  import opened Http2Spec

  const PREFACE_LEN: nat := 24

  /** What the reader drives: any deterministic connection, with whatever its callbacks do. */
  datatype Engine<!S> = Engine(
    handle: (S, Frame) -> S,   // handle_frame
    oversize: S -> S,          // FRAME_SIZE_ERROR for a frame above the local limit
    badPreface: S -> S,        // PROTOCOL_ERROR for a wrong preface octet
    prefaced: S -> S,          // the preface is complete
    dead: S -> bool)

  /** The reader between calls; once the engine is dead only c matters. */
  datatype Wire<S> = Wire(c: S, preface: nat, buffer: seq<byte>)

  function FrameOf(h: FrameHeader, payload: seq<byte>): Frame { Frame(h.kind, h.flags, h.id, payload) }

  // ---- the meaning of an octet stream, with no reads in it ----

  /** Whole frames are handed over in order; an incomplete one stays in the buffer. */
  function Deliver<S>(e: Engine<S>, c: S, bytes: seq<byte>): Wire<S>
    decreases |bytes|
  {
    if e.dead(c) then Wire(c, PREFACE_LEN, [])
    else if |bytes| < HEADER_BYTES then Wire(c, PREFACE_LEN, bytes)
    else
      var h := ParseHeader(bytes[..HEADER_BYTES]);
      if h.length > LOCAL_MAX_FRAME then Wire(e.oversize(c), PREFACE_LEN, [])
      else if |bytes| < HEADER_BYTES + h.length then Wire(c, PREFACE_LEN, bytes)
      else Deliver(e, e.handle(c, FrameOf(h, bytes[HEADER_BYTES..HEADER_BYTES + h.length])), bytes[HEADER_BYTES + h.length..])
  }

  /** The preface is compared octet by octet, then frames follow. */
  function Receive<S>(e: Engine<S>, w: Wire<S>, data: seq<byte>): Wire<S>
    decreases |data|
  {
    if e.dead(w.c) || (w.preface < PREFACE_LEN && data == []) then w
    else if w.preface >= PREFACE_LEN then Deliver(e, w.c, w.buffer + data)
    else if w.preface < |PREFACE| && data[0] == PREFACE[w.preface] then
      if w.preface + 1 < PREFACE_LEN then Receive(e, w.(preface := w.preface + 1), data[1..])
      else Deliver(e, e.prefaced(w.c), data[1..])
    else w.(c := e.badPreface(w.c))
  }

  /** Alike for every later call: the same connection, and the same pending octets while it lives. */
  ghost predicate Same<S>(e: Engine<S>, v: Wire<S>, w: Wire<S>) {
    v.c == w.c && (!e.dead(v.c) ==> v == w)
  }

  /** Connection errors end the connection, a complete preface does not. */
  ghost predicate Sound<S(!new)>(e: Engine<S>) {
    forall c: S :: e.dead(e.oversize(c)) && e.dead(e.badPreface(c)) && !e.dead(e.prefaced(c))
  }

  lemma {:induction false} DeliverTwice<S(!new)>(e: Engine<S>, c: S, a: seq<byte>, b: seq<byte>)
    requires Sound(e)
    ensures var mid := Deliver(e, c, a);
            if e.dead(mid.c) then Deliver(e, c, a + b).c == mid.c && e.dead(Deliver(e, c, a + b).c)
            else mid.preface == PREFACE_LEN && Deliver(e, mid.c, mid.buffer + b) == Deliver(e, c, a + b)
    decreases |a|
  {
    if !e.dead(c) && |a| >= HEADER_BYTES {
      var h := ParseHeader(a[..HEADER_BYTES]);
      assert (a + b)[..HEADER_BYTES] == a[..HEADER_BYTES];
      var n := HEADER_BYTES + h.length;
      if h.length <= LOCAL_MAX_FRAME && |a| >= n {
        assert (a + b)[HEADER_BYTES..n] == a[HEADER_BYTES..n];
        assert (a + b)[n..] == a[n..] + b;
        DeliverTwice(e, e.handle(c, FrameOf(h, a[HEADER_BYTES..n])), a[n..], b);
      }
    }
  }

  /** Less than one acceptable frame. */
  predicate Unfinished(b: seq<byte>) {
    |b| < HEADER_BYTES ||
    var h := ParseHeader(b[..HEADER_BYTES]); h.length <= LOCAL_MAX_FRAME && |b| < HEADER_BYTES + h.length
  }

  lemma UnfinishedWaits<S>(e: Engine<S>, c: S, b: seq<byte>)
    ensures !e.dead(c) && Unfinished(b) ==> Deliver(e, c, b) == Wire(c, PREFACE_LEN, b)
  {
  }

  /** A buffer holds no complete frame. */
  ghost predicate Partial<S>(e: Engine<S>, w: Wire<S>) {
    && w.preface <= PREFACE_LEN
    && (w.preface < PREFACE_LEN ==> w.buffer == [])
    && (w.preface == PREFACE_LEN && !e.dead(w.c) ==> Unfinished(w.buffer))
  }

  lemma {:induction false} DeliverPartial<S(!new)>(e: Engine<S>, c: S, bytes: seq<byte>)
    requires Sound(e)
    ensures Partial(e, Deliver(e, c, bytes))
    decreases |bytes|
  {
    if !e.dead(c) && |bytes| >= HEADER_BYTES {
      var h := ParseHeader(bytes[..HEADER_BYTES]);
      var n := HEADER_BYTES + h.length;
      if h.length <= LOCAL_MAX_FRAME && |bytes| >= n {
        DeliverPartial(e, e.handle(c, FrameOf(h, bytes[HEADER_BYTES..n])), bytes[n..]);
      }
    }
  }

  /** Two reads are as good as one. */
  lemma {:induction false} ReceiveTwice<S(!new)>(e: Engine<S>, w: Wire<S>, a: seq<byte>, b: seq<byte>)
    requires Sound(e) && Partial(e, w)
    ensures Partial(e, Receive(e, w, a))
    ensures Same(e, Receive(e, Receive(e, w, a), b), Receive(e, w, a + b))
    decreases |a|
  {
    if e.dead(w.c) {
    } else if w.preface >= PREFACE_LEN {
      assert w.buffer + (a + b) == (w.buffer + a) + b;
      DeliverTwice(e, w.c, w.buffer + a, b);
      DeliverPartial(e, w.c, w.buffer + a);
    } else if a == [] {
      assert a + b == b;
    } else if w.preface < |PREFACE| && a[0] == PREFACE[w.preface] {
      assert (a + b)[1..] == a[1..] + b;
      if w.preface + 1 < PREFACE_LEN {
        ReceiveTwice(e, w.(preface := w.preface + 1), a[1..], b);
      } else {
        DeliverTwice(e, e.prefaced(w.c), a[1..], b);
        DeliverPartial(e, e.prefaced(w.c), a[1..]);
      }
    }
  }

  function ReceiveAll<S>(e: Engine<S>, w: Wire<S>, chunks: seq<seq<byte>>): Wire<S>
    decreases |chunks|
  {
    if chunks == [] then w else ReceiveAll(e, Receive(e, w, chunks[0]), chunks[1..])
  }

  lemma ReceiveNothing<S>(e: Engine<S>, w: Wire<S>)
    requires Partial(e, w)
    ensures Receive(e, w, []) == w
  {
    assert w.buffer + [] == w.buffer;
    UnfinishedWaits(e, w.c, w.buffer);
  }

  /** However a stream is cut into reads, the connection ends where one read of the whole would take it. */
  lemma {:induction false} ReadSplitIndependence<S(!new)>(e: Engine<S>, w: Wire<S>, chunks: seq<seq<byte>>)
    requires Sound(e) && Partial(e, w)
    ensures Same(e, ReceiveAll(e, w, chunks), Receive(e, w, Join(chunks)))
    decreases |chunks|
  {
    if chunks == [] {
      ReceiveNothing(e, w);
    } else {
      ReceiveTwice(e, w, chunks[0], Join(chunks[1..]));
      ReadSplitIndependence(e, Receive(e, w, chunks[0]), chunks[1..]);
    }
  }

  // ---- the reading loop ----

  lemma PrefaceLength()
    ensures |PREFACE| == PREFACE_LEN
  {
  }

  /** A matching run of preface octets is consumed; anything else is a bad preface, wherever it starts. */
  lemma {:induction false} PrefaceRun<S>(e: Engine<S>, w: Wire<S>, data: seq<byte>, n: nat)
    requires !e.dead(w.c) && w.preface + n <= PREFACE_LEN && n <= |data| && w.preface < PREFACE_LEN && |PREFACE| == PREFACE_LEN
    requires n == |data| || w.preface + n == PREFACE_LEN
    ensures data[..n] == PREFACE[w.preface..w.preface + n] ==>
              Receive(e, w, data) == if w.preface + n < PREFACE_LEN then w.(preface := w.preface + n)
                                     else Deliver(e, e.prefaced(w.c), data[n..])
    ensures data[..n] != PREFACE[w.preface..w.preface + n] ==> Receive(e, w, data).c == e.badPreface(w.c)
    decreases n
  {
    hide Deliver, Ascii;
    if n > 0 {
      HeadsAgree(data, n, w.preface);
      if data[0] == PREFACE[w.preface] {
        if w.preface + 1 < PREFACE_LEN {
          PrefaceRun(e, w.(preface := w.preface + 1), data[1..], n - 1);
        }
      }
    }
  }

  lemma HeadsAgree(data: seq<byte>, n: nat, p: nat)
    requires 0 < n <= |data| && p + n <= |PREFACE|
    ensures data[..n] == PREFACE[p..p + n] <==> data[0] == PREFACE[p] && data[1..][..n - 1] == PREFACE[p + 1..p + n]
    ensures data[1..][n - 1..] == data[n..]
  {
    assert data[..n] == [data[0]] + data[1..][..n - 1];
    assert PREFACE[p..p + n] == [PREFACE[p]] + PREFACE[p + 1..p + n];
    assert data[..n][1..] == data[1..][..n - 1] && PREFACE[p..p + n][1..] == PREFACE[p + 1..p + n];
  }

  lemma DeliverDead<S>(e: Engine<S>, c: S, stream: seq<byte>)
    ensures e.dead(c) ==> Deliver(e, c, stream).c == c
  {
  }

  lemma DeliverCases<S>(e: Engine<S>, c: S, stream: seq<byte>)
    requires !e.dead(c) && |stream| >= HEADER_BYTES
    ensures var h := ParseHeader(stream[..HEADER_BYTES]);
            var n := HEADER_BYTES + h.length;
            && (h.length > LOCAL_MAX_FRAME ==> Deliver(e, c, stream).c == e.oversize(c))
            && (h.length <= LOCAL_MAX_FRAME && |stream| >= n ==>
                  Deliver(e, c, stream) == Deliver(e, e.handle(c, FrameOf(h, stream[HEADER_BYTES..n])), stream[n..]))
  {
  }
}
