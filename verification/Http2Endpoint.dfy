/** process_input on the connection object: octets in, fields updated in place, every state one of a legal run. */
module Http2Endpoint {
  import opened Bytes
  import opened HpackSpec
  import opened Http2Frames
  import opened Http2Spec
  import opened Http2Reach
  import opened Http2Ends
  import opened Http2Input
  import opened Http2Runs
  import opened Http2Errors
  import opened Http2Connection

  /** What the reader asks of the connection. */
  lemma EngineIs(c: Conn, f: Frame)
    ensures var e := Engines();
            && e.handle(c, f) == HandleFrame(c, f) && e.oversize(c) == ConnError(c, FRAME_SIZE_ERROR)
            && e.badPreface(c) == ConnError(c, PROTOCOL_ERROR) && e.prefaced(c) == c.(state := Active)
            && e.dead(c) == c.state.Dead?
  {
    hide HandleFrame, ConnError;
  }

  lemma IsDead(c: Conn)
    ensures Engines().dead(c) == c.state.Dead?
  {
    hide HandleFrame, ConnError;
  }

  class Endpoint {
    const conn: Connection
    const input: array<byte>
    var preface: nat
    var len: nat

    ghost function State(): Wire<Conn>
      requires conn.Valid() && len <= input.Length
      reads this, input, conn, conn.openIds, conn.ring
    {
      Wire(conn.Abs(), preface, input[..len])
    }

    /** The reassembly buffer holds less than one frame. */
    ghost predicate Valid()
      reads this, input, conn, conn.openIds, conn.ring
    {
      && conn.Valid() && |PREFACE| == PREFACE_LEN
      && input.Length == HEADER_BYTES + LOCAL_MAX_FRAME && len <= input.Length
      && preface <= PREFACE_LEN && (preface < PREFACE_LEN ==> len == 0)
      && (!conn.state.Dead? ==> Unfinished(input[..len]))
    }

    /** Some legal run of reads and calls leads here. */
    ghost predicate Running()
      reads this, input, conn, conn.openIds, conn.ring
    {
      Valid() && Tracked(State())
    }

    constructor (server: bool, huffman: Huffman, maxBody: nat)
      ensures Running() && fresh(conn) && fresh(conn.openIds) && fresh(conn.ring) && fresh(input)
      ensures State() == FreshWire(server, huffman, maxBody)
    {
      hide Connection.Valid, Connection.Abs, Init, Reached, Tracked, Engines, Ascii;
      conn := new Connection(server, huffman, maxBody);
      input := new byte[HEADER_BYTES + LOCAL_MAX_FRAME](i => 0);
      preface, len := if server then 0 else PREFACE_LEN, 0;
      new;
      PrefaceLength();
      FreshWireTracked(server, huffman, maxBody);
    }

    /** Octets data[off..off + n] join the buffer. */
    method Fill(data: seq<byte>, off: nat, n: nat)
      requires len <= input.Length && off + n <= |data| && len + n <= input.Length
      modifies this`len, input
      ensures len == old(len) + n && input[..len] == old(input[..len]) + data[off..off + n]
    {
      var i := 0;
      while i < n
        invariant 0 <= i <= n && len == old(len)
        invariant input[..len] == old(input[..len])
        invariant input[len..len + i] == data[off..off + i]
      {
        ghost var before := input[len..len + i];
        input[len + i] := data[off + i];
        assert input[len..len + i + 1] == before + [data[off + i]];
        i := i + 1;
      }
      ghost var all := input[..len + n];
      assert all == all[..len] + all[len..];
      len := len + n;
    }

    /** What a turn of the loop does to the stream still to be delivered. */
    twostate predicate Advanced(data: seq<byte>, was: nat, off: nat, live: bool)
      requires was <= off <= |data| && old(conn.Valid()) && old(len) <= input.Length && conn.Valid() && len <= input.Length
      reads this, input, conn, conn.openIds, conn.ring
    {
      var before := Deliver(Engines(), old(conn.Abs()), old(input[..len]) + data[was..]);
      live == !conn.state.Dead?
      && if live then before == Deliver(Engines(), conn.Abs(), input[..len] + data[off..]) else before.c == conn.Abs()
    }

    /** A frame is handed over, with rest to follow. */
    method Hand(f: Frame, ghost rest: seq<byte>) returns (live: bool)
      requires conn.Valid()
      modifies conn, conn.openIds, conn.ring
      ensures conn.Valid() && live == !conn.state.Dead? && conn.Abs() == Engines().handle(old(conn.Abs()), f)
      ensures !live ==> Deliver(Engines(), conn.Abs(), rest).c == conn.Abs()
    {
      hide Deliver, Engines, Connection.Valid, Connection.Abs, HandleFrame, ConnError, Reached, Ascii;
      EngineIs(conn.Abs(), f);
      conn.HandleFrame(f);
      conn.Fields();
      IsDead(conn.Abs());
      DeliverDead(Engines(), conn.Abs(), rest);
      live := !conn.state.Dead?;
    }

    method Oversize()
      requires conn.Valid()
      modifies conn, conn.openIds, conn.ring
      ensures conn.Valid() && conn.state.Dead? && conn.Abs() == Engines().oversize(old(conn.Abs()))
    {
      hide Engines, Connection.Valid, Connection.Abs, HandleFrame, ConnError, Reached, Ascii;
      EngineIs(conn.Abs(), Frame(0, 0, 0, []));
      ErrorKills(conn.Abs(), FRAME_SIZE_ERROR);
      conn.ConnectionError(FRAME_SIZE_ERROR);
      conn.Fields();
    }

    /** A frame that lies whole in the read is handed over from there. */
    method Direct(data: seq<byte>, was: nat) returns (live: bool, took: bool, off: nat)
      requires Valid() && preface == PREFACE_LEN && !conn.state.Dead? && was + HEADER_BYTES <= |data| && len == 0
      modifies conn, conn.openIds, conn.ring
      ensures Valid() && was <= off <= |data| && Advanced(data, was, off, live)
      ensures took ==> off > was
      ensures !took && live ==> off == was
    {
      hide Deliver, Engines, ParseHeader, Connection.Valid, Connection.Abs, Reached, Ascii;
      ghost var c := conn.Abs();
      conn.Fields();
      ghost var stream := data[was..];
      assert input[..len] + stream == stream;
      var h := ParseHeader(data[was..was + HEADER_BYTES]);
      assert stream[..HEADER_BYTES] == data[was..was + HEADER_BYTES];
      IsDead(c);
      DeliverCases(Engines(), c, stream);
      off := was;
      if h.length > LOCAL_MAX_FRAME {
        Oversize();
        return false, false, off;
      }
      var n := HEADER_BYTES + h.length;
      if |data| - was < n {
        return true, false, off;
      }
      assert stream[HEADER_BYTES..n] == data[was + HEADER_BYTES..was + n];
      assert stream[n..] == data[was + n..];
      var f := FrameOf(h, data[was + HEADER_BYTES..was + n]);
      off := was + n;
      assert input[..len] + data[off..] == data[off..];
      live := Hand(f, data[off..]);
      return live, true, off;
    }

    /** Octets are gathered until the header, then the payload, is complete. */
    method Gather(data: seq<byte>, was: nat) returns (live: bool, off: nat)
      requires Valid() && preface == PREFACE_LEN && !conn.state.Dead? && was < |data|
      modifies this`len, input, conn, conn.openIds, conn.ring
      ensures Valid() && was < off <= |data| && Advanced(data, was, off, live)
    {
      hide Deliver, Engines, ParseHeader, Connection.Valid, Connection.Abs;
      off := was;
      ghost var stream := input[..len] + data[was..];
      if len < HEADER_BYTES {
        var n := if HEADER_BYTES - len < |data| - off then HEADER_BYTES - len else |data| - off;
        Fill(data, off, n);
        off := off + n;
        assert input[..len] + data[off..] == stream;
        if len < HEADER_BYTES {
          return true, off;
        }
      }
      assert stream[..HEADER_BYTES] == input[..len][..HEADER_BYTES] == input[..HEADER_BYTES];
      assert off == was ==> Unfinished(input[..len]);
      live, off := Complete(data, off, stream);
    }

    method Complete(data: seq<byte>, was: nat, ghost stream: seq<byte>) returns (live: bool, off: nat)
      requires conn.Valid() && input.Length == HEADER_BYTES + LOCAL_MAX_FRAME && |PREFACE| == PREFACE_LEN
      requires preface == PREFACE_LEN && !conn.state.Dead? && was <= |data| && HEADER_BYTES <= len <= input.Length
      requires stream == input[..len] + data[was..]
      requires var h := ParseHeader(input[..HEADER_BYTES]); h.length <= LOCAL_MAX_FRAME ==> len <= HEADER_BYTES + h.length
      requires len > HEADER_BYTES ==> var h := ParseHeader(input[..HEADER_BYTES]); h.length <= LOCAL_MAX_FRAME
      modifies this`len, input, conn, conn.openIds, conn.ring
      ensures Valid() && was <= off <= |data| && live == !conn.state.Dead?
      ensures var h := ParseHeader(old(input[..HEADER_BYTES]));
              h.length <= LOCAL_MAX_FRAME && old(len) < HEADER_BYTES + h.length && was < |data| ==> off > was
      ensures if live then Deliver(Engines(), old(conn.Abs()), stream) == Deliver(Engines(), conn.Abs(), input[..len] + data[off..])
              else Deliver(Engines(), old(conn.Abs()), stream).c == conn.Abs()
    {
      hide Deliver, Engines, ParseHeader, Connection.Valid, Connection.Abs, Reached, Ascii;
      conn.Fields();
      ghost var c := conn.Abs();
      var h := ParseHeader(input[..HEADER_BYTES]);
      assert stream[..HEADER_BYTES] == input[..HEADER_BYTES];
      IsDead(c);
      DeliverCases(Engines(), c, stream);
      off := was;
      if h.length > LOCAL_MAX_FRAME {
        Oversize();
        return false, off;
      }
      var need := HEADER_BYTES + h.length;
      var n := if need - len < |data| - off then need - len else |data| - off;
      Fill(data, off, n);
      off := off + n;
      assert input[..len] + data[off..] == stream;
      assert input[..len][..HEADER_BYTES] == stream[..HEADER_BYTES];
      if len < need {
        return true, off;
      }
      assert stream[HEADER_BYTES..need] == input[HEADER_BYTES..need];
      assert stream[need..] == data[off..];
      var f := FrameOf(h, input[HEADER_BYTES..need]);
      len := 0;
      assert input[..len] + data[off..] == data[off..];
      live := Hand(f, data[off..]);
    }

    /** The loop: whole frames straight from the read, the rest through the buffer. */
    method Frames(data: seq<byte>, start: nat) returns (ok: bool, consumed: nat)
      requires Valid() && preface == PREFACE_LEN && !conn.state.Dead? && start <= |data|
      modifies this`len, input, conn, conn.openIds, conn.ring
      ensures Valid()
      ensures conn.state.Dead? ==> conn.Abs() == Deliver(Engines(), old(conn.Abs()), old(input[..len]) + data[start..]).c
      ensures !conn.state.Dead? ==>
                Deliver(Engines(), conn.Abs(), input[..len]) == Deliver(Engines(), old(conn.Abs()), old(input[..len]) + data[start..])
      ensures ok <==> !conn.state.Dead?
      ensures ok ==> consumed == |data|
    {
      hide Deliver, Engines, Connection.Valid, Connection.Abs;
      var off := start;
      ok, consumed := false, 0;
      ghost var whole := Deliver(Engines(), conn.Abs(), input[..len] + data[off..]);
      while off < |data|
        invariant Valid() && !conn.state.Dead? && start <= off <= |data|
        invariant whole == Deliver(Engines(), conn.Abs(), input[..len] + data[off..])
        decreases |data| - off
      {
        var live, took := true, false;
        if len == 0 && |data| - off >= HEADER_BYTES {
          live, took, off := Direct(data, off);
        }
        if live && !took {
          live, off := Gather(data, off);
        }
        if !live {
          return;
        }
      }
      assert input[..len] + data[off..] == input[..len];
      ok, consumed := true, |data|;
    }

    /** The preface octets of a read; done says that there is nothing more to read for now. */
    method TakePreface(data: seq<byte>) returns (done: bool, ok: bool, off: nat)
      requires Valid() && preface < PREFACE_LEN && !conn.state.Dead?
      modifies this`preface, conn, conn.openIds, conn.ring
      ensures Valid() && off <= |data|
      ensures done ==> ok == !conn.state.Dead? && (ok ==> off == |data|)
                       && Same(Engines(), State(), Receive(Engines(), old(State()), data))
      ensures !done ==> preface == PREFACE_LEN && !conn.state.Dead? && len == old(len) == 0
                        && Deliver(Engines(), conn.Abs(), data[off..]) == Receive(Engines(), old(State()), data)
    {
      hide Deliver, Receive, Engines, Ascii, Connection.Valid, Connection.Abs, ConnError, Reached;
      var n := if PREFACE_LEN - preface < |data| then PREFACE_LEN - preface else |data|;
      ghost var c := conn.Abs();
      conn.Fields();
      EngineIs(c, Frame(0, 0, 0, []));
      PrefaceRun(Engines(), State(), data, n);
      if PREFACE[preface..preface + n] != data[..n] {
        conn.ConnectionError(PROTOCOL_ERROR);
        ErrorKills(c, PROTOCOL_ERROR);
        conn.Fields();
        IsDead(conn.Abs());
        return true, false, 0;
      }
      preface := preface + n;
      if preface < PREFACE_LEN {
        return true, true, n;
      }
      conn.Prefaced();
      conn.Fields();
      return false, true, n;
    }

    /** All of a call's input is consumed unless the connection dies, and reads leave no trace of where they were cut. */
    method ProcessInput(data: seq<byte>) returns (ok: bool, consumed: nat)
      requires Running()
      modifies this, input, conn, conn.openIds, conn.ring
      ensures Running() && Reached(conn.Abs())
      ensures Same(Engines(), State(), Receive(Engines(), old(State()), data))
      ensures ok <==> !old(conn.state.Dead?) && !conn.state.Dead?
      ensures ok ==> consumed == |data|
    {
      ok, consumed := Process(data);
      StillTracked(old(State()), State(), data);
    }

    method Process(data: seq<byte>) returns (ok: bool, consumed: nat)
      requires Valid()
      modifies this, input, conn, conn.openIds, conn.ring
      ensures Valid() && Same(Engines(), State(), Receive(Engines(), old(State()), data))
      ensures ok <==> !old(conn.state.Dead?) && !conn.state.Dead?
      ensures ok ==> consumed == |data|
    {
      hide Deliver, Engines, Ascii, Connection.Valid, Connection.Abs;
      ok, consumed := false, 0;
      conn.Fields();
      IsDead(conn.Abs());
      if conn.state.Dead? {
        return;
      }
      var off := 0;
      if preface < PREFACE_LEN {
        var done;
        done, ok, off := TakePreface(data);
        if done {
          return ok, off;
        }
      }
      assert input[..len] + data[off..] == if off == 0 then old(input[..len]) + data else data[off..];
      ok, consumed := Frames(data, off);
      conn.Fields();
      IsDead(conn.Abs());
      UnfinishedWaits(Engines(), conn.Abs(), input[..len]);
    }

    /** A call of the application. */
    method Call(step: Step)
      requires Running() && IsCall(step)
      modifies conn, conn.openIds, conn.ring
      ensures Running() && State() == old(State()).(c := Take(old(conn.Abs()), step))
    {
      hide Connection.Valid, Connection.Abs, Reached, Tracked, Partial, Unfinished, Engines, Ascii,
           SendResponse, SendRequest, SendRst, SendGoaway, Commit;
      ValidIsPartial(this);
      conn.Fields();
      CallTracked(State(), step);
      match step {
        case Respond(id, status, headers, body) => conn.SendResponse(id, status, headers, body);
        case Ask(fields, body) => conn.SendRequest(fields, body);
        case Reset(id, code) => conn.SendRst(id, code);
        case Goaway(code, debug) => conn.SendGoaway(code, debug);
        case Drain(n) => conn.CommitOutput(n);
      }
      conn.Fields();
    }

    /** Whatever arrives and whatever is called, in any order. */
    method Run(events: seq<Event>)
      requires Running() && Possible(events)
      modifies this, input, conn, conn.openIds, conn.ring
      ensures Running() && Reached(conn.Abs()) && Same(Engines(), State(), Play(old(State()), events))
    {
      hide Connection.Valid, Connection.Abs, Reached, Tracked, Partial, Engines, Play, Take, Receive, Unfinished, Ascii;
      var i := 0;
      ghost var whole := Play(State(), events);
      assert events[0..] == events;
      while i < |events|
        invariant 0 <= i <= |events| && Running() && Same(Engines(), Play(State(), events[i..]), whole)
      {
        ghost var was := State();
        ValidIsPartial(this);
        if events[i].Octets? {
          var ok, consumed := ProcessInput(events[i].data);
        } else {
          Call(events[i].step);
        }
        ValidIsPartial(this);
        PlayedOne(was, State(), events, i);
        i := i + 1;
      }
      assert events[i..] == [];
      PlayedAll(State());
    }
  }

  lemma ValidIsPartial(e: Endpoint)
    requires e.Valid()
    ensures Partial(Engines(), e.State())
  {
    hide Connection.Valid, Ascii, Unfinished;
    e.conn.Fields();
    IsDead(e.conn.Abs());
  }

  lemma PlayedAll(w: Wire<Conn>)
    ensures Play(w, []) == w && (Tracked(w) ==> Reached(w.c))
  {
    hide Reached;
  }

  /** The events from i on, after event i. */
  lemma PlayedOne(was: Wire<Conn>, now: Wire<Conn>, events: seq<Event>, i: nat)
    requires i < |events| && Possible(events) && Tracked(was) && Partial(Engines(), was) && Tracked(now) && Partial(Engines(), now)
    requires Same(Engines(), now, Happens(was, events[i]))
    ensures Same(Engines(), Play(now, events[i + 1..]), Play(was, events[i..]))
  {
    hide Tracked, Partial, Same, Engines, Happens;
    HappensTracked(was, events[i]);
    assert events[i..][0] == events[i] && events[i..][1..] == events[i + 1..];
    PlaySame(now, Happens(was, events[i]), events[i + 1..]);
  }

  lemma StillTracked(was: Wire<Conn>, now: Wire<Conn>, data: seq<byte>)
    requires Tracked(was) && now.preface <= PREFACE_LEN && Same(Engines(), now, Receive(Engines(), was, data))
    ensures Tracked(now)
  {
    hide Receive, Reached;
    ReceiveIsRun(was, data);
  }
}
