/** Octets in, states out: what process_input does to a connection is a legal run, however the octets are cut. */
module Http2Runs {
  import opened Bytes
  import opened HpackSpec
  import opened Http2Frames
  import opened Http2Spec
  import opened Http2Invariant
  import opened Http2Errors
  import opened Http2Reach
  import opened Http2Ends
  import opened Http2History
  import opened Http2Input

  /** The connection as what the reader drives. */
  function Engines(): Engine<Conn> {
    Engine((c: Conn, f: Frame) => HandleFrame(c, f),
           (c: Conn) => ConnError(c, FRAME_SIZE_ERROR),
           (c: Conn) => ConnError(c, PROTOCOL_ERROR),
           (c: Conn) => c.(state := Active),
           (c: Conn) => c.state.Dead?)
  }

  lemma EngineSound()
    ensures Sound(Engines())
  {
    hide ConnError, HandleFrame;
    forall c: Conn ensures ConnError(c, FRAME_SIZE_ERROR).state.Dead? && ConnError(c, PROTOCOL_ERROR).state.Dead? {
      ErrorKills(c, FRAME_SIZE_ERROR);
      ErrorKills(c, PROTOCOL_ERROR);
    }
  }

  /** The preface is awaited exactly while its octets are being counted. */
  ghost predicate Tracked(w: Wire<Conn>) {
    && Reached(w.c) && w.preface <= PREFACE_LEN
    && (!w.c.state.Dead? ==> (w.preface < PREFACE_LEN <==> w.c.state.PrefacePending?))
  }

  lemma HandledIsReached(c: Conn, f: Frame)
    requires Reached(c) && !c.state.Dead? && !c.state.PrefacePending? && f.id < TWO31 && |f.payload| <= LOCAL_MAX_FRAME
    ensures Reached(HandleFrame(c, f)) && !HandleFrame(c, f).state.PrefacePending?
  {
    ReachedInv(c);
    assert Table(c);
    hide Reached, HandleFrame, Table;
    assert HandleFrame(c, f) == Take(c, Arrive(f));
    ReachedStep(c, Arrive(f));
    ArriveRecords(c, f);
  }

  lemma {:induction false} DeliverIsRun(c: Conn, bytes: seq<byte>)
    requires Reached(c) && !c.state.PrefacePending?
    ensures Tracked(Deliver(Engines(), c, bytes))
    decreases |bytes|
  {
    hide Reached, HandleFrame, ConnError;
    var e := Engines();
    if !c.state.Dead? && |bytes| >= HEADER_BYTES {
      var h := ParseHeader(bytes[..HEADER_BYTES]);
      var n := HEADER_BYTES + h.length;
      if h.length > LOCAL_MAX_FRAME {
        ViolationIsReached(c, FRAME_SIZE_ERROR);
      } else if |bytes| >= n {
        var f := FrameOf(h, bytes[HEADER_BYTES..n]);
        HandledIsReached(c, f);
        DeliverIsRun(HandleFrame(c, f), bytes[n..]);
      }
    }
  }

  lemma ViolationIsReached(c: Conn, code: nat)
    requires Reached(c) && !c.state.Dead? && (code == PROTOCOL_ERROR || code == FRAME_SIZE_ERROR)
    ensures Reached(ConnError(c, code)) && ConnError(c, code).state.Dead?
  {
    hide Reached;
    ReachedStep(c, Violate(code));
    ErrorKills(c, code);
  }

  lemma {:induction false} ReceiveIsRun(w: Wire<Conn>, data: seq<byte>)
    requires Tracked(w)
    ensures Tracked(Receive(Engines(), w, data))
    decreases |data|
  {
    hide Reached, Deliver, ConnError, HandleFrame;
    var e := Engines();
    if !w.c.state.Dead? {
      if w.preface >= PREFACE_LEN {
        DeliverIsRun(w.c, w.buffer + data);
      } else if data != [] {
        if w.preface < |PREFACE| && data[0] == PREFACE[w.preface] {
          if w.preface + 1 < PREFACE_LEN {
            ReceiveIsRun(w.(preface := w.preface + 1), data[1..]);
          } else {
            ReachedStep(w.c, Prefaced);
            DeliverIsRun(w.c.(state := Active), data[1..]);
          }
        } else {
          ViolationIsReached(w.c, PROTOCOL_ERROR);
        }
      }
    }
  }

  // ---- reads and calls ----

  /** What the outside does to a connection: octets arrive, or the application calls. */
  datatype Event = Octets(data: seq<byte>) | Call(step: Step)

  function Happens(w: Wire<Conn>, e: Event): Wire<Conn> {
    match e
    case Octets(data) => Receive(Engines(), w, data)
    case Call(step) => w.(c := Take(w.c, step))
  }

  function Play(w: Wire<Conn>, events: seq<Event>): Wire<Conn>
    decreases |events|
  {
    if events == [] then w else Play(Happens(w, events[0]), events[1..])
  }

  predicate Possible(events: seq<Event>) {
    forall i | 0 <= i < |events| && events[i].Call? :: IsCall(events[i].step)
  }

  /** The wire of a fresh connection; a client awaits no preface. */
  function FreshWire(server: bool, huffman: Huffman, maxBody: nat): Wire<Conn> {
    Wire(Init(server, huffman, maxBody), if server then 0 else PREFACE_LEN, [])
  }

  lemma FreshWireTracked(server: bool, huffman: Huffman, maxBody: nat)
    ensures var w := FreshWire(server, huffman, maxBody); Tracked(w) && Partial(Engines(), w)
  {
    hide Reached;
    InitReached(server, huffman, maxBody);
  }

  /** A call neither completes nor reopens the preface, and wakes nothing that is dead. */
  lemma CallTracked(w: Wire<Conn>, step: Step)
    requires Tracked(w) && Partial(Engines(), w) && IsCall(step)
    ensures var w' := w.(c := Take(w.c, step)); Tracked(w') && Partial(Engines(), w') && (w.c.state.Dead? ==> w'.c.state.Dead?)
  {
    hide Reached, Take, Enabled, Unfinished, Table, Inv;
    ReachedInv(w.c);
    InvIsTable(w.c);
    CallMild(w.c, step);
    ReachedStep(w.c, step);
  }

  lemma HappensTracked(w: Wire<Conn>, e: Event)
    requires Tracked(w) && Partial(Engines(), w) && (e.Call? ==> IsCall(e.step))
    ensures Tracked(Happens(w, e)) && Partial(Engines(), Happens(w, e))
  {
    match e
    case Octets(data) =>
      hide Tracked, Receive, Partial;
      EngineSound();
      ReceiveIsRun(w, data);
      hide Engines, Sound;
      ReceiveTwice(Engines(), w, data, []);
    case Call(step) =>
      hide Tracked, Take;
      CallTracked(w, step);
  }

  /** Whatever arrives and whatever is called, in any order: one legal run. */
  lemma {:induction false} PlayIsRun(w: Wire<Conn>, events: seq<Event>)
    requires Tracked(w) && Partial(Engines(), w) && Possible(events)
    ensures Tracked(Play(w, events)) && Partial(Engines(), Play(w, events))
    ensures Reached(Play(w, events).c)
    decreases |events|
  {
    hide Reached, Partial, Happens, Engines;
    if events != [] {
      HappensTracked(w, events[0]);
      PlayIsRun(Happens(w, events[0]), events[1..]);
    }
  }

  /** So from the start of a connection on. */
  lemma EventsAreOneRun(server: bool, huffman: Huffman, maxBody: nat, events: seq<Event>)
    requires Possible(events)
    ensures Reached(Play(FreshWire(server, huffman, maxBody), events).c)
  {
    hide Reached, Tracked, Partial, Possible, FreshWire, Play;
    FreshWireTracked(server, huffman, maxBody);
    PlayIsRun(FreshWire(server, huffman, maxBody), events);
  }

  /** Wires that are alike stay alike. */
  lemma {:induction false} PlaySame(v: Wire<Conn>, w: Wire<Conn>, events: seq<Event>)
    requires Same(Engines(), v, w) && Tracked(v) && Partial(Engines(), v) && Tracked(w) && Partial(Engines(), w) && Possible(events)
    ensures Same(Engines(), Play(v, events), Play(w, events))
    decreases |events|
  {
    if events != [] {
      var e := events[0];
      HappensTracked(v, e);
      HappensTracked(w, e);
      assert Same(Engines(), Happens(v, e), Happens(w, e)) by { HappensSame(v, w, e); }
      hide Tracked, Partial, Same, Happens, Engines;
      PlaySame(Happens(v, e), Happens(w, e), events[1..]);
    }
  }

  lemma HappensSame(v: Wire<Conn>, w: Wire<Conn>, e: Event)
    requires Same(Engines(), v, w) && Tracked(v) && Partial(Engines(), v) && (e.Call? ==> IsCall(e.step))
    ensures Same(Engines(), Happens(v, e), Happens(w, e))
  {
    hide Tracked, Partial, Take, Deliver, Reached;
    if e.Call? {
      CallTracked(v, e.step);
    }
  }

  lemma {:induction false} PlayOn(w: Wire<Conn>, xs: seq<Event>, ys: seq<Event>)
    ensures Play(w, xs + ys) == Play(Play(w, xs), ys)
    decreases |xs|
  {
    hide Happens;
    if xs == [] {
      assert xs + ys == ys;
    } else {
      assert (xs + ys)[1..] == xs[1..] + ys;
      PlayOn(Happens(w, xs[0]), xs[1..], ys);
    }
  }

  /** Two reads with no call between them are as good as one, whatever came before and comes after. */
  lemma ReadsMerge(w: Wire<Conn>, xs: seq<Event>, a: seq<byte>, b: seq<byte>, ys: seq<Event>)
    requires Tracked(w) && Partial(Engines(), w) && Possible(xs) && Possible(ys)
    ensures Same(Engines(), Play(w, xs + ([Octets(a), Octets(b)] + ys)), Play(w, xs + ([Octets(a + b)] + ys)))
  {
    hide Tracked, Partial, Same, Engines, Receive, Sound;
    PlayOn(w, xs, [Octets(a), Octets(b)] + ys);
    PlayOn(w, xs, [Octets(a + b)] + ys);
    PlayIsRun(w, xs);
    var v := Play(w, xs);
    PlayOn(v, [Octets(a), Octets(b)], ys);
    PlayOn(v, [Octets(a + b)], ys);
    var v1 := Receive(Engines(), v, a);
    var v2 := Receive(Engines(), v1, b);
    var u := Receive(Engines(), v, a + b);
    PlayTwo(v, a, b);
    EngineSound();
    ReceiveTwice(Engines(), v, a, b);
    HappensTracked(v, Octets(a));
    HappensTracked(v1, Octets(b));
    HappensTracked(v, Octets(a + b));
    PlaySame(v2, u, ys);
  }

  lemma PlayTwo(v: Wire<Conn>, a: seq<byte>, b: seq<byte>)
    ensures Play(v, [Octets(a), Octets(b)]) == Receive(Engines(), Receive(Engines(), v, a), b)
    ensures Play(v, [Octets(a + b)]) == Receive(Engines(), v, a + b)
  {
    hide Receive, Engines;
    var v1 := Receive(Engines(), v, a);
    assert [Octets(a), Octets(b)][1..] == [Octets(b)] && [Octets(b)][1..] == [];
    assert Play(v1, [Octets(b)]) == Play(Receive(Engines(), v1, b), []);
    assert [Octets(a + b)][1..] == [];
  }

  /** Any octets, in any reads: one legal run, and the state one read of them all would reach. */
  lemma ReadsAreOneRun(w: Wire<Conn>, chunks: seq<seq<byte>>)
    requires Tracked(w) && Partial(Engines(), w)
    ensures Reached(Receive(Engines(), w, Join(chunks)).c)
    ensures Same(Engines(), ReceiveAll(Engines(), w, chunks), Receive(Engines(), w, Join(chunks)))
  {
    EngineSound();
    ReceiveIsRun(w, Join(chunks));
    hide Reached, Receive, ReceiveAll, Partial, Same, Sound, Engines;
    ReadSplitIndependence(Engines(), w, chunks);
  }
}
