/** Sending DATA: what each frame keeps, and why nothing sendable is left behind. */
module Http2Pump {
  import opened Http2Frames
  import opened Http2Spec
  import opened Http2Trace
  import opened Http2Invariant
  import opened Http2Leaves

  /** The DATA frame pump_stream queues for a sendable stream, and the stream afterwards. */
  ghost predicate Sendable(c: Conn, id: nat) {
    && id in c.streams
    && var s := c.streams[id];
       s.sendPending && s.sendOff <= |s.body| && !Blocked(c, s)
  }

  function NextFrame(c: Conn, id: nat): Frame
    requires id in c.streams && c.streams[id].sendOff <= |c.streams[id].body|
  {
    var s := c.streams[id];
    var n := Quantum(c, s);
    Frame(DATA, if n == |s.body| - s.sendOff then 1 else 0, id, s.body[s.sendOff..s.sendOff + n])
  }

  function NextStream(c: Conn, id: nat): Stream
    requires id in c.streams && c.streams[id].sendOff <= |c.streams[id].body|
  {
    var s := c.streams[id];
    var n := Quantum(c, s);
    var s1 := s.(sendOff := s.sendOff + n, sendWindow := s.sendWindow - n);
    if n == |s.body| - s.sendOff then s1.(sendPending := false, state := AfterDataSent(s.state, true)) else s1
  }

  /** One successful pump_stream, field by field. */
  ghost predicate Pumps(c: Conn, id: nat, c': Conn)
    requires Sendable(c, id)
  {
    var f := NextFrame(c, id);
    var s := NextStream(c, id);
    && c'.log == Then(c.log, Out(f))
    && c'.backlog == c.backlog + HEADER_BYTES + |f.payload|
    && c'.sendWindow == c.sendWindow - |f.payload|
    && (if s.state.Closed? then c'.streams == c.streams - {id} && c'.openIds == SwapRemove(c.openIds, id)
        else c'.streams == c.streams[id := s] && c'.openIds == c.openIds)
    && c'.closedIds == (if s.state.Closed? then c.closedIds + [id] else c.closedIds)
    && c' == c.(log := c'.log, backlog := c'.backlog, sendWindow := c'.sendWindow, streams := c'.streams,
                openIds := c'.openIds, closedIds := c'.closedIds)
  }

  lemma PumpStreamCases(c: Conn, id: nat)
    requires Table(c)
    ensures Sendable(c, id) <==> PumpStream(c, id).progress
    ensures Sendable(c, id) ==> Pumps(c, id, PumpStream(c, id).c)
    ensures !Sendable(c, id) ==> PumpStream(c, id).c == c
  {
    if Sendable(c, id) {
      var s := c.streams[id];
      assert Shape(s);
      var n := Quantum(c, s);
      assert |NextFrame(c, id).payload| == n;
      if n == |s.body| - s.sendOff && AfterDataSent(s.state, true).Closed? {
        assert c.streams[id := NextStream(c, id)] - {id} == c.streams - {id};
      } else {
        assert !NextStream(c, id).state.Closed?;
      }
    }
  }

  // ---- safety of one frame ----

  lemma QuantumFits(c: Conn, id: nat)
    requires Table(c) && PeerSync(c) && Sendable(c, id)
    ensures var s := c.streams[id]; var n := Quantum(c, s);
            && 0 < n <= c.sendWindow && n <= s.sendWindow && n <= FrameLimit(c.log) && n <= |s.body| - s.sendOff
            && |NextFrame(c, id).payload| == n
  {
    assert Shape(c.streams[id]);
  }

  lemma PumpTable(c: Conn, id: nat, c': Conn)
    requires Table(c) && PeerSync(c) && Sendable(c, id) && Pumps(c, id, c')
    ensures Table(c')
  {
    hide PeerSync, SwapRemove, Quantum, FrameLimit, NextStream, Shape;
    SwapRemoveKeeps(c.openIds, id);
    assert Shape(NextStream(c, id)) by { NextShape(c, id); }
  }

  lemma NextShape(c: Conn, id: nat)
    requires Table(c) && PeerSync(c) && Sendable(c, id)
    ensures Shape(NextStream(c, id))
  {
    hide Table, PeerSync, FrameLimit, Quantum;
    ShapeOf(c, id);
    QuantumFits(c, id);
  }

  lemma PumpSends(c: Conn, id: nat, c': Conn)
    requires Table(c) && Sends(c) && PeerSync(c) && Sendable(c, id) && Pumps(c, id, c')
    ensures Sends(c')
  {
    QuantumFits(c, id);
    forall j: nat ensures SendOk(c', j) {
      PumpSendOk(c, id, c', j);
    }
    hide Table, SwapRemove, FrameLimit, SendOk, Shape;
  }

  lemma PumpSendOk(c: Conn, id: nat, c': Conn, j: nat)
    requires Table(c) && Sends(c) && PeerSync(c) && Sendable(c, id) && Pumps(c, id, c')
    ensures SendOk(c', j)
  {
    assert Shape(c.streams[id]) && SendOk(c, j);
    hide Table, Sends, PeerSync, SwapRemove, FrameLimit, Quantum, Shape, PhaseGood, PhaseOf;
    QuantumFits(c, id);
    PumpPhase(c, id, c', j, false);
    if j !in c.idleResets {
      PumpPhase(c, id, c', j, true);
    }
    assert Begun(c'.log, j) == Begun(c.log, j);
  }

  lemma PumpPhase(c: Conn, id: nat, c': Conn, j: nat, strict: bool)
    requires Table(c) && Sends(c) && PeerSync(c) && Sendable(c, id) && Pumps(c, id, c') && PhaseGood(c, j, strict)
    ensures PhaseGood(c', j, strict)
  {
    hide Table, Sends, PeerSync, SwapRemove, FrameLimit, Quantum, OnData;
    if j == id {
      PumpOwnPhase(c, id, c', strict);
    }
  }

  lemma PumpOwnPhase(c: Conn, id: nat, c': Conn, strict: bool)
    requires Table(c) && PeerSync(c) && Sendable(c, id) && Pumps(c, id, c') && PhaseGood(c, id, strict)
    ensures PhaseGood(c', id, strict)
  {
    hide Table, PeerSync, SwapRemove, FrameLimit, Quantum;
    assert Shape(c.streams[id]) by { ShapeOf(c, id); }
    QuantumFits(c, id);
  }

  lemma ShapeOf(c: Conn, id: nat)
    requires Table(c) && id in c.streams
    ensures Shape(c.streams[id])
  {
  }

  lemma PumpOthers(c: Conn, id: nat, c': Conn)
    requires Table(c) && Ids(c) && Requests(c) && Goaways(c) && Sendable(c, id) && Pumps(c, id, c')
    ensures Ids(c') && Requests(c') && Goaways(c')
  {
    var e := Out(NextFrame(c, id));
    assert Shape(c.streams[id]);
    RequestsFrame(c, c', e);
    GoawaysFrame(c, c', e);
  }

  lemma PumpResponses(c: Conn, id: nat, c': Conn)
    requires Table(c) && Responses(c) && Flow(c) && Sendable(c, id) && Pumps(c, id, c')
    ensures Responses(c')
  {
    assert Shape(c.streams[id]);
    assert FlowFits(c, id, c.streams[id]);
    hide Table, Flow, Responses;
    ResponsesFrame(c, c', Out(NextFrame(c, id)));
  }

  lemma PumpFits(c: Conn, id: nat, c': Conn)
    requires Table(c) && PeerSync(c) && Sendable(c, id) && FlowFits(c, id, c.streams[id]) && Pumps(c, id, c')
    ensures id in c'.streams ==> FlowFits(c', id, c'.streams[id])
  {
    QuantumFits(c, id);
    assert Shape(c.streams[id]);
  }

  lemma PumpConn(c: Conn, id: nat, c': Conn)
    requires Table(c) && ConnFlow(c) && PeerSync(c) && BlockSync(c) && Sendable(c, id) && Pumps(c, id, c')
    ensures ConnFlow(c') && PeerSync(c') && BlockSync(c')
  {
    QuantumFits(c, id);
  }

  lemma PumpFlow(c: Conn, id: nat, c': Conn)
    requires Table(c) && Flow(c) && Sendable(c, id) && Pumps(c, id, c')
    ensures Flow(c')
  {
    assert id <= c.lastId;
    PumpConn(c, id, c');
    PumpFits(c, id, c');
    UntouchedFrame(c, c', Out(NextFrame(c, id)));
    hide ConnFlow, PeerSync, BlockSync, Untouched, FlowFits, Table, SwapRemove;
    forall j | j in c'.streams && j != id ensures FlowFits(c', j, c'.streams[j]) {
      FitsFrame(c, c', Out(NextFrame(c, id)), j, c.streams[j]);
    }
  }

  lemma FlowIsPeerSync(c: Conn)
    requires Flow(c)
    ensures PeerSync(c)
  {
  }

  lemma PumpStreamKeeps(c: Conn, id: nat)
    requires Core(c) && Flow(c)
    ensures Core(PumpStream(c, id).c) && Flow(PumpStream(c, id).c)
  {
    PumpStreamCases(c, id);
    var c' := PumpStream(c, id).c;
    hide PumpStream, Table, Sends, Requests, Responses, Goaways, Flow, FlowExcept, Pumps, Sendable;
    if Sendable(c, id) {
      FlowIsPeerSync(c);
      PumpTable(c, id, c');
      PumpSends(c, id, c');
      PumpOthers(c, id, c');
      PumpResponses(c, id, c');
      PumpFlow(c, id, c');
    }
  }

  lemma {:induction false} PumpPassKeeps(c: Conn, ids: seq<nat>)
    requires Core(c) && Flow(c)
    ensures Core(PumpPass(c, ids).c) && Flow(PumpPass(c, ids).c)
    decreases |ids|
  {
    hide Core, Flow, PumpStream;
    if ids != [] {
      PumpStreamKeeps(c, ids[0]);
      PumpPassKeeps(PumpStream(c, ids[0]).c, ids[1..]);
    }
  }

  lemma {:induction false} PumpDataKeeps(c: Conn, passes: nat)
    requires Core(c) && Flow(c)
    ensures Core(PumpData(c, passes)) && Flow(PumpData(c, passes))
    decreases passes
  {
    hide Core, Flow, PumpPass;
    if passes != 0 && c.sendWindow > 0 {
      PumpPassKeeps(c, c.openIds);
      if PumpPass(c, c.openIds).progress {
        PumpDataKeeps(PumpPass(c, c.openIds).c, passes - 1);
      }
    }
  }

  // ---- no stuck data: a potential that every progressing pass lowers ----

  function Units(w: int): nat { if w <= 0 then 0 else (w + LOCAL_MAX_FRAME - 1) / LOCAL_MAX_FRAME }

  ghost function Pending(c: Conn): set<nat> { set id | id in c.streams && c.streams[id].sendPending }

  ghost function Ready(c: Conn): set<nat> { set id | id in c.streams && c.streams[id].sendPending && c.streams[id].sendWindow > 0 }

  /** Full frames the connection window admits, bodies unfinished, and stream windows still open. */
  ghost function Potential(c: Conn): nat { Units(c.sendWindow) + |Pending(c)| + |Ready(c)| }

  lemma SubsetSize(a: set<nat>, b: set<nat>)
    requires a <= b
    ensures |a| <= |b|
    ensures a != b ==> |a| < |b|
  {
    assert |b| == |a| + |b - a| by { assert b == a + (b - a); }
    assert a != b ==> b - a != {};
  }

  lemma PumpShrinks(c: Conn, id: nat, c': Conn)
    requires Table(c) && PeerSync(c) && Sendable(c, id) && Pumps(c, id, c')
    ensures Potential(c') < Potential(c)
  {
    QuantumFits(c, id);
    var s := c.streams[id];
    var n := Quantum(c, s);
    assert Pending(c') <= Pending(c) && Ready(c') <= Ready(c);
    SubsetSize(Pending(c'), Pending(c));
    SubsetSize(Ready(c'), Ready(c));
    if n == |s.body| - s.sendOff {
      assert id in Pending(c) && id !in Pending(c');
    } else if n == s.sendWindow {
      assert id in Ready(c) && id !in Ready(c');
    } else if n == c.sendWindow {
      assert Units(c'.sendWindow) == 0 < Units(c.sendWindow);
    } else {
      assert n >= LOCAL_MAX_FRAME;
      assert Units(c'.sendWindow) < Units(c.sendWindow);
    }
    assert Units(c'.sendWindow) <= Units(c.sendWindow);
  }

  lemma {:induction false} PassShrinks(c: Conn, ids: seq<nat>)
    requires Core(c) && Flow(c)
    ensures PumpPass(c, ids).progress ==> Potential(PumpPass(c, ids).c) < Potential(c)
    ensures !PumpPass(c, ids).progress ==> PumpPass(c, ids).c == c && forall id | id in ids :: !Sendable(c, id)
    decreases |ids|
  {
    if ids != [] {
      var first := PumpStream(c, ids[0]);
      PumpStreamCases(c, ids[0]);
      PumpStreamKeeps(c, ids[0]);
      FlowIsPeerSync(c);
      if Sendable(c, ids[0]) {
        PumpShrinks(c, ids[0], first.c);
      }
      hide Core, Flow, PumpStream, Sendable, Potential;
      PassShrinks(first.c, ids[1..]);
    }
  }

  lemma QuietWhenShut(c: Conn)
    requires Table(c)
    requires c.sendWindow <= 0 || forall id | id in c.openIds :: !Sendable(c, id)
    ensures Quiet(c)
  {
    forall id | id in c.streams && c.streams[id].sendPending
      ensures c.streams[id].sendOff <= |c.streams[id].body| && Blocked(c, c.streams[id])
    {
      assert Shape(c.streams[id]);
      assert id in c.openIds;
    }
  }

  lemma {:induction false} EnoughPasses(c: Conn, passes: nat)
    requires Core(c) && Flow(c) && Potential(c) < passes
    ensures Quiet(PumpData(c, passes))
    decreases passes
  {
    hide Core, Flow, PumpPass, Potential, Sendable, Quiet;
    CoreIsTable(c);
    if c.sendWindow <= 0 {
      QuietWhenShut(c);
    } else {
      PassShrinks(c, c.openIds);
      PumpPassKeeps(c, c.openIds);
      if PumpPass(c, c.openIds).progress {
        EnoughPasses(PumpPass(c, c.openIds).c, passes - 1);
      } else {
        QuietWhenShut(c);
      }
    }
  }

  lemma CoreIsTable(c: Conn)
    requires Core(c)
    ensures Table(c)
  {
  }

  lemma {:induction false} ListSetSize(ids: seq<nat>, s: set<nat>)
    requires forall x | x in s :: x in ids
    ensures |s| <= |ids|
  {
    if ids == [] {
      assert s == {};
    } else {
      ListSetSize(ids[1..], s - {ids[0]});
      SubsetSize(s, (s - {ids[0]}) + {ids[0]});
    }
  }

  /** The pass limit is eight times what any state can need. */
  lemma PotentialBound(c: Conn)
    requires Table(c) && ConnFlow(c)
    ensures Potential(c) <= 131072 + 2 * MAX_STREAMS < MAX_PASSES
  {
    ListSetSize(c.openIds, Pending(c));
    ListSetSize(c.openIds, Ready(c));
  }

  /** Pumping keeps everything and leaves nothing sendable: the pass limit is never what stops it. */
  lemma PumpInv(c: Conn)
    requires Core(c) && Flow(c)
    ensures Core(Pump(c)) && Flow(Pump(c)) && Quiet(Pump(c))
  {
    PotentialBound(c);
    hide Core, Flow, Quiet, Potential, PumpData;
    PumpDataKeeps(c, MAX_PASSES);
    EnoughPasses(c, MAX_PASSES);
  }
}
