/** Stream and connection errors keep the invariant. */
module Http2Errors {
  import opened Bytes
  import opened Http2Frames
  import opened Http2Spec
  import opened Http2Invariant
  import opened Http2Leaves

  // ---- moves that leave every stream's standing alone ----

  ghost predicate Alike(s: Stream, s': Stream) {
    && s' == s.(sendWindow := s'.sendWindow, recvWindow := s'.recvWindow)
  }

  ghost predicate SameTable(c: Conn, c': Conn) {
    && c'.server == c.server && c'.maxBody == c.maxBody && c'.openIds == c.openIds
    && c'.lastId == c.lastId && c'.acceptedId == c.acceptedId
    && c'.idleResets == c.idleResets && c'.earlyAnswers == c.earlyAnswers && c'.goawayOut == c.goawayOut && c'.earlyGoaway == c.earlyGoaway
    && c'.streams.Keys == c.streams.Keys
    && (forall id {:trigger c'.streams[id]} | id in c'.streams :: id in c.streams && Alike(c.streams[id], c'.streams[id]))
  }

  ghost predicate NoRevival(c: Conn, c': Conn) {
    && (c'.state.Active? ==> c.state.Active? || c.state.PrefacePending?)
    && (c'.state.PrefacePending? ==> c.state.PrefacePending?)
  }

  lemma TableSame(c: Conn, c': Conn)
    requires Table(c) && SameTable(c, c')
    ensures Table(c')
  {
    forall id | id in c'.streams ensures id % 2 == 1 && id <= c'.lastId && Shape(c'.streams[id]) {
      assert Shape(c.streams[id]);
    }
  }

  lemma CoreFrame(c: Conn, c': Conn, e: Entry)
    requires Core(c) && e.In? && Extends(c, c', e) && SameTable(c, c') && NoRevival(c, c')
    ensures Core(c')
  {
    TableSame(c, c');
    hide Table, Sends, Requests, Responses, Goaways, CanSend, CanReceive;
    SendsFrame(c, c', e);
    RequestsFrame(c, c', e);
    ResponsesFrame(c, c', e);
    GoawaysFrame(c, c', e);
  }

  lemma CoreEmit(c: Conn, c': Conn, f: Frame)
    requires Core(c) && Control(f) && f.kind != GOAWAY && c'.log == Then(c.log, Out(f)) && SameTable(c, c') && NoRevival(c, c')
    ensures Core(c')
  {
    TableSame(c, c');
    hide Table, Sends, Requests, Responses, Goaways, CanSend, CanReceive;
    SendsControl(c, c', f);
    RequestsFrame(c, c', Out(f));
    ResponsesFrame(c, c', Out(f));
    GoawaysFrame(c, c', Out(f));
  }

  // ---- a client stream is reset ----

  lemma ResetOneCore(c: Conn, id: nat, error: nat)
    requires Core(c) && !c.server && id in c.streams
    ensures Core(CloseStream(Notify(c, ResetEvent, id, error, [], [], false), id))
  {
    var m := Notify(c, ResetEvent, id, error, [], [], false);
    var c' := CloseStream(m, id);
    var e := m.log.last;
    TableClose(c, id);
    hide Table, Sends, Requests, Responses, Goaways;
    SendsFrame(c, c', e);
    RequestsFrame(c, c', e);
    ResponsesEnd(c, c', e.response);
    GoawaysFrame(c, c', e);
  }

  lemma {:induction false} ResetAllCore(c: Conn, error: nat)
    requires Core(c)
    ensures Core(ResetAll(c, error))
    ensures ResetAll(c, error).state == c.state
    ensures !c.server ==> ResetAll(c, error).openIds == []
    decreases |c.openIds|
  {
    if !c.server && c.openIds != [] {
      var id := c.openIds[|c.openIds| - 1];
      ResetOneCore(c, id, error);
      hide Core;
      ResetAllCore(CloseStream(Notify(c, ResetEvent, id, error, [], [], false), id), error);
    }
  }

  // ---- connection errors ----

  lemma SayGoawayCore(c: Conn, code: nat, debug: seq<byte>, c': Conn)
    requires Core(c) && !c.state.Dead? && |debug| <= LOCAL_MAX_FRAME - 8
    requires c' == SayGoaway(c, code, debug).(error := c'.error, state := c'.state)
    requires c'.state != c.state || !c.state.Active?
    requires c'.state.Active? ==> c.state.Active?
    requires c'.state.PrefacePending? ==> c.state.PrefacePending?
    ensures Core(c')
  {
    var f := GoawayFrame(NextCutoff(c), code, debug);
    SendsControl(c, c', f);
    RequestsFrame(c, c', Out(f));
    ResponsesFrame(c, c', Out(f));
    GoawaysSay(c, code, debug, c');
  }

  lemma {:induction false} ResetKeepsState(c: Conn, code: nat)
    ensures ResetAll(c, code).state == c.state
    decreases |c.openIds|
  {
    if !c.server && c.openIds != [] {
      var id := c.openIds[|c.openIds| - 1];
      ResetKeepsState(CloseStream(Notify(c, ResetEvent, id, code, [], [], false), id), code);
    }
  }

  lemma ErrorKills(c: Conn, code: nat)
    ensures ConnError(c, code).state.Dead?
  {
    hide ResetAll, SayGoaway;
    if !c.state.Dead? {
      ResetKeepsState(SayGoaway(c, code, []).(error := code, state := Dead), code);
    }
  }

  lemma ConnErrorCore(c: Conn, code: nat)
    requires Core(c)
    ensures Core(ConnError(c, code))
    ensures ConnError(c, code).state.Dead?
  {
    if !c.state.Dead? {
      var c1 := SayGoaway(c, code, []).(error := code, state := Dead);
      SayGoawayCore(c, code, [], c1);
      hide Core;
      ResetAllCore(c1, code);
    }
  }

  lemma ConnErrorInv(c: Conn, code: nat)
    requires Core(c)
    ensures Inv(ConnError(c, code))
  {
    hide Core, ConnError;
    ConnErrorCore(c, code);
  }

  // ---- stream errors ----

  /** The connection after RST_STREAM went out for id and its stream, if any, left the table. */
  function Dropped(c: Conn, id: nat, code: nat): Conn {
    CloseStream(Emit(c.(idleResets := if IdleOdd(c, id) then c.idleResets + {id} else c.idleResets), RstFrame(id, code)), id)
  }

  lemma DroppedCommon(c: Conn, id: nat, code: nat)
    requires Core(c)
    ensures var d := Dropped(c, id, code); Table(d) && Ids(d) && Sends(d) && Requests(d) && Goaways(d)
    ensures c.server ==> Responses(Dropped(c, id, code))
  {
    var d := Dropped(c, id, code);
    var f := RstFrame(id, code);
    TableClose(c, id);
    hide Table, Sends, Requests, Goaways, Responses;
    SendsReset(c, d, f);
    RequestsFrame(c, d, Out(f));
    if c.server { ResponsesFrame(c, d, Out(f)); }
    GoawaysFrame(c, d, Out(f));
  }

  /** For a client the reset is reported before the stream leaves. */
  lemma DroppedClient(c: Conn, id: nat, code: nat)
    requires Core(c) && !c.server && id in c.streams
    ensures Core(CloseStream(Notify(Emit(c, RstFrame(id, code)), ResetEvent, id, code, [], [], false), id))
  {
    var d := Dropped(c, id, code);
    var m := Emit(c, RstFrame(id, code));
    var n := Notify(m, ResetEvent, id, code, [], [], false);
    var c' := CloseStream(n, id);
    assert !IdleOdd(c, id);
    DroppedCommon(c, id, code);
    ResponsesFrame(c, m, Out(RstFrame(id, code)));
    assert c' == d.(log := c'.log);
    hide Table, Sends, Requests, Goaways, Responses;
    ResponsesEnd(m, c', n.log.last.response);
    TableOnly(d, c');
    SendsFrame(d, c', n.log.last);
    RequestsFrame(d, c', n.log.last);
    GoawaysFrame(d, c', n.log.last);
  }

  lemma TableOnly(c: Conn, c': Conn)
    requires Table(c) && c' == c.(log := c'.log, closedIds := c'.closedIds)
    ensures Table(c')
  {
  }

  /** A reset for a stream that is not in the table changes only the log and the two id lists. */
  lemma DroppedAbsent(c: Conn, id: nat, code: nat, c': Conn)
    requires Core(c) && id !in c.streams
    requires c' == Dropped(c, id, code).(closedIds := c'.closedIds)
    ensures Core(c')
  {
    var d := Dropped(c, id, code);
    DroppedCommon(c, id, code);
    assert id !in c.openIds;
    assert c.streams - {id} == c.streams;
    hide Table, Sends, Requests, Goaways, Responses, Ids;
    ResponsesFrame(c, d, Out(RstFrame(id, code)));
    ClosedIdsOnly(d, c');
  }

  lemma ClosedIdsOnly(c: Conn, c': Conn)
    requires Core(c) && c' == c.(closedIds := c'.closedIds)
    ensures Core(c')
  {
    forall id: nat ensures SendOk(c', id) { assert SendOk(c, id); }
    if !c.server {
      forall id: nat ensures ResponseOk(c', id) { assert ResponseOk(c, id); }
    }
  }

  lemma StreamErrorCore(c: Conn, id: nat, code: nat)
    requires Core(c)
    ensures Core(StreamError(c, id, code))
  {
    if c.backlog > MAX_BACKLOG {
      ConnErrorCore(c, ENHANCE_YOUR_CALM);
    } else if id in c.streams {
      assert !IdleOdd(c, id);
      if c.server {
        DroppedCommon(c, id, code);
      } else {
        DroppedClient(c, id, code);
      }
    } else {
      assert id !in c.openIds;
      assert c.streams - {id} == c.streams;
      DroppedAbsent(c, id, code, StreamError(c, id, code));
    }
  }

  lemma ResetStill(id: nat, code: nat)
    ensures Still(Out(RstFrame(id, code)))
  {
  }

  lemma StreamErrorFlow(c: Conn, id: nat, code: nat)
    requires FlowExcept(c, id) && c.backlog <= MAX_BACKLOG
    ensures Flow(StreamError(c, id, code))
  {
    hide ConnError, RecentlyClosed, SwapRemove, FlowExcept, IdleOdd, RstFrame;
    var c' := StreamError(c, id, code);
    var m := Emit(c, RstFrame(id, code));
    assert Still(Out(RstFrame(id, code))) by { ResetStill(id, code); }
    FlowFrame(c, m, Out(RstFrame(id, code)), id);
    if id in c.streams && !c.server {
      FlowFrame(m, c', c'.log.last, id);
    } else {
      FlowFrame(m, c', Opened(0, []), id);
    }
    FlowWithout(c', id);
  }

  lemma FlowWithout(c: Conn, id: nat)
    requires FlowExcept(c, id) && id !in c.streams
    ensures Flow(c)
  {
  }

  lemma StreamErrorQuiet(c: Conn, id: nat, code: nat)
    requires Quiet(c) && c.backlog <= MAX_BACKLOG
    ensures Quiet(StreamError(c, id, code))
  {
    hide ConnError, RecentlyClosed, SwapRemove, Quiet;
    QuietFrame(c, StreamError(c, id, code));
  }

  lemma StreamErrorInv(c: Conn, id: nat, code: nat)
    requires Core(c)
    requires !c.state.Dead? ==> FlowExcept(c, id) && Quiet(c)
    ensures Inv(StreamError(c, id, code))
  {
    StreamErrorCore(c, id, code);
    if c.backlog > MAX_BACKLOG {
      ConnErrorInv(c, ENHANCE_YOUR_CALM);
    } else if !c.state.Dead? {
      StreamErrorFlow(c, id, code);
      StreamErrorQuiet(c, id, code);
    } else {
      assert StreamError(c, id, code).state == c.state;
    }
    hide Core, Flow, Quiet, ConnError;
  }
}
