/** The invariant holds after every run, and what follows from it. */
module Http2Safety {
  import opened Bytes
  import opened HpackSpec
  import opened Http2Frames
  import opened Http2Spec
  import opened Http2Trace
  import opened Http2Invariant
  import opened Http2Leaves
  import opened Http2Errors
  import opened Http2Handlers
  import opened Http2Blocks
  import opened Http2Data
  import opened Http2Calls

  lemma DispatchInv(c0: Conn, f: Frame, c: Conn)
    requires Inv(c0) && !c0.state.Dead? && Arrived(c0, f, c) && |f.payload| <= LOCAL_MAX_FRAME && f.id < TWO31
    ensures Inv(Dispatch(c, f))
  {
    hide Inv, ConnError, HandleData, HandleHeaders, HandlePriority, HandleRst, HandleSettings, HandlePing, HandleGoaway,
      HandleWindowUpdate, HandleContinuation;
    InvIsCore(c0);
    ArrivedCore(c0, f, c);
    ConnErrorInv(c, PROTOCOL_ERROR);
    if c.assembly.id != 0 && f.kind != CONTINUATION {
    } else if f.kind == DATA { DataInv(c0, f, c); }
    else if f.kind == HEADERS { HeadersInv(c0, f, c); }
    else if f.kind == PRIORITY { PriorityInv(c0, f, c); }
    else if f.kind == RST_STREAM { RstInv(c0, f, c); }
    else if f.kind == SETTINGS { SettingsInv(c0, f, c); }
    else if f.kind == PING { PingInv(c0, f, c); }
    else if f.kind == GOAWAY { GoawayInv(c0, f, c); }
    else if f.kind == WINDOW_UPDATE { WindowUpdateInv(c0, f, c); }
    else if f.kind == CONTINUATION { ContinuationInv(c0, f, c); }
    else if f.kind != PUSH_PROMISE { UnknownInv(c0, f, c); }
  }

  lemma InvIsCore(c: Conn)
    requires Inv(c)
    ensures Core(c)
  {
  }

  lemma UnknownInv(c0: Conn, f: Frame, c: Conn)
    requires Inv(c0) && !c0.state.Dead? && Arrived(c0, f, c) && Still(In(f))
    ensures Inv(c)
  {
    hide Core, Flow, Quiet;
    ArrivedCore(c0, f, c);
    ArrivedStill(c0, f, c);
  }

  lemma HandleFrameInv(c: Conn, f: Frame)
    requires Inv(c) && !c.state.Dead? && |f.payload| <= LOCAL_MAX_FRAME && f.id < TWO31
    ensures Inv(HandleFrame(c, f))
  {
    hide Inv, Core, Dispatch, ConnError;
    var c1 := Log(c, In(f));
    InvIsCore(c);
    CoreFrame(c, c1, In(f));
    ConnErrorInv(c1, ENHANCE_YOUR_CALM);
    MovedCore(c1, c1.(firstSeen := true));
    ConnErrorInv(c1.(firstSeen := true), PROTOCOL_ERROR);
    DispatchInv(c, f, c1.(firstSeen := true));
  }

  lemma PrefacedInv(c: Conn)
    requires Inv(c) && c.state.PrefacePending?
    ensures Inv(c.(state := Active))
  {
    hide Core, Flow, Quiet;
    SetState(c, c.(state := Active));
  }

  lemma StepInv(c: Conn, step: Step)
    requires Inv(c) && Enabled(c, step)
    ensures Inv(Take(c, step))
  {
    hide Inv, HandleFrame, ConnError, SendResponse, SendRequest, SendRst, SendGoaway, Commit, Core;
    match step
    case Prefaced => PrefacedInv(c);
    case Arrive(f) => HandleFrameInv(c, f);
    case Violate(code) => InvIsCore(c); ConnErrorInv(c, code);
    case Respond(id, status, headers, body) => SendResponseInv(c, id, status, headers, body);
    case Ask(fields, body) => SendRequestInv(c, fields, body);
    case Reset(id, code) => SendRstInv(c, id, code);
    case Goaway(code, debug) => SendGoawayInv(c, code, debug);
    case Drain(n) => CommitInv(c, n);
  }

  lemma InitCore(server: bool, huffman: Huffman, maxBody: nat)
    ensures Core(Init(server, huffman, maxBody))
  {
    var c := Init(server, huffman, maxBody);
    assert c.log == Then(Empty, Out(LocalSettings(server)));
    assert PeerSetting(Empty, 5, LOCAL_MAX_FRAME) == LOCAL_MAX_FRAME;
    forall id: nat ensures SendOk(c, id) {
      assert PhaseOf(Empty, id, false) == Fresh && PhaseOf(Empty, id, true) == Fresh;
    }
    forall id: nat ensures ResponseOk(c, id) && ProgressOf(c.log, id) == Waiting {
      assert ProgressOf(Empty, id) == Waiting;
    }
    assert !Announced(Empty) && Cutoff(Empty) == MAX_ID && !IsGoaway(Out(LocalSettings(server)));
    assert !Announced(c.log) && Cutoff(c.log) == MAX_ID;
  }

  lemma InitFlow(server: bool, huffman: Huffman, maxBody: nat)
    ensures Flow(Init(server, huffman, maxBody)) && Quiet(Init(server, huffman, maxBody))
  {
    var c := Init(server, huffman, maxBody);
    forall id: nat | IdleOdd(c, id)
      ensures Granted(c.log, id) == Sent(c.log, id) == Returned(c.log, id) == Taken(c.log, id) == 0 && Content(c.log, id) == []
    {
      assert Granted(Empty, id) == Sent(Empty, id) == Returned(Empty, id) == Taken(Empty, id) == 0;
    }
  }

  lemma InitInv(server: bool, huffman: Huffman, maxBody: nat)
    ensures Inv(Init(server, huffman, maxBody))
  {
    hide Core, Flow, Quiet;
    InitCore(server, huffman, maxBody);
    InitFlow(server, huffman, maxBody);
  }

  /** Every state of every run satisfies the invariant. */
  lemma {:induction false} RunInv(c: Conn, steps: seq<Step>)
    requires Inv(c) && Legal(c, steps)
    ensures Inv(After(c, steps))
    decreases |steps|
  {
    if steps != [] {
      StepInv(c, steps[0]);
      hide Inv, Take, Enabled;
      RunInv(Take(c, steps[0]), steps[1..]);
    }
  }
}
