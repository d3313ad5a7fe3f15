/** Http2Connection with its fields updated in place; every method is the function of Http2Spec it is named after. */
module Http2Connection {
  import opened Bytes
  import opened HpackSpec
  import opened Http2Frames
  import opened Http2Fields
  import opened Http2Spec
  import opened Http2Reach
  import opened Http2Wire
  import Http2Validate

  /** Entry i of the history is in the ring as long as it is among the last 256. */
  ghost predicate RingHolds(ring: seq<nat>, closed: seq<nat>) {
    |ring| == 256 && forall i | 0 <= i < |closed| && i + 256 >= |closed| :: ring[i % 256] == closed[i]
  }

  lemma RingPushed(ring: seq<nat>, closed: seq<nat>, id: nat)
    requires RingHolds(ring, closed)
    ensures RingHolds(ring[|closed| % 256 := id], closed + [id])
  {
    var r, h := ring[|closed| % 256 := id], closed + [id];
    forall i | 0 <= i < |h| && i + 256 >= |h| ensures r[i % 256] == h[i] {
      if i < |closed| {
        assert i % 256 != |closed| % 256 by { NotSame(i, |closed|); }
      }
    }
  }

  lemma NotSame(i: nat, n: nat)
    requires i < n < i + 256
    ensures i % 256 != n % 256
  {
  }

  /** The one number congruent to i among the last 256 before n. */
  lemma WindowSlot(i: nat, n: nat)
    requires i < 256 && (n < 256 ==> i < n)
    ensures var j := if n < 256 then i else n - 256 + (i - n) % 256;
            (if n > 256 then n - 256 else 0) <= j < n && j % 256 == i
  {
  }

  /** The ring's used slots are the window of RecentlyClosed. */
  lemma RingIsWindow(ring: seq<nat>, closed: seq<nat>, id: nat)
    requires RingHolds(ring, closed)
    ensures var n := |closed|;
            id in ring[..if n < 256 then n else 256] <==> id in closed[if n > 256 then n - 256 else 0..]
  {
    var n := |closed|;
    if id in ring[..if n < 256 then n else 256] {
      InRingIsRecent(ring, closed, id);
    }
    if id in closed[if n > 256 then n - 256 else 0..] {
      RecentIsInRing(ring, closed, id);
    }
  }

  lemma InRingIsRecent(ring: seq<nat>, closed: seq<nat>, id: nat)
    requires RingHolds(ring, closed) && id in ring[..if |closed| < 256 then |closed| else 256]
    ensures id in closed[if |closed| > 256 then |closed| - 256 else 0..]
  {
    var n := |closed|;
    var used, lo := if n < 256 then n else 256, if n > 256 then n - 256 else 0;
    var i :| 0 <= i < |ring[..used]| && ring[..used][i] == id;
    WindowSlot(i, n);
    var j := if n < 256 then i else n - 256 + (i - n) % 256;
    assert closed[j] == ring[j % 256];
    assert closed[lo..][j - lo] == closed[j];
  }

  lemma RecentIsInRing(ring: seq<nat>, closed: seq<nat>, id: nat)
    requires RingHolds(ring, closed) && id in closed[if |closed| > 256 then |closed| - 256 else 0..]
    ensures id in ring[..if |closed| < 256 then |closed| else 256]
  {
    var n := |closed|;
    var used, lo := if n < 256 then n else 256, if n > 256 then n - 256 else 0;
    var k :| 0 <= k < |closed[lo..]| && closed[lo..][k] == id;
    var j := lo + k;
    assert ring[j % 256] == closed[j] && j % 256 < used;
    assert ring[..used][j % 256] == id;
  }

  class Connection {
    const server: bool
    const huffman: Huffman
    const maxBody: nat
    const openIds: array<nat>
    const ring: array<nat>

    var state: ConnState
    var firstSeen: bool
    var error: nat
    var peer: Peer
    var sendWindow: int
    var recvWindow: int
    var streams: map<nat, Stream>
    var openCount: nat
    var lastId: nat
    var acceptedId: nat
    var closedNext: nat
    var goawayIn: nat
    var goawayOut: nat
    var enc: EncState
    var dec: DecState
    var assembly: Assembly
    var output: seq<byte>
    var offset: nat

    ghost var log: Trace
    ghost var closed: seq<nat>    // everything the ring was ever given
    ghost var drained: seq<byte>  // everything committed
    ghost var idleResets: set<nat>
    ghost var earlyAnswers: set<nat>
    ghost var earlyGoaway: bool

    /** Committed and pending output together are the octets of all frames queued. */
    ghost predicate Valid()
      reads this`openCount, this`closedNext, this`closed, this`offset, this`output, this`drained, this`log, this`peer, ring
    {
      && openIds != ring && openIds.Length == MAX_STREAMS && openCount <= MAX_STREAMS
      && closedNext == |closed| && RingHolds(ring[..], closed)
      && offset <= |output| && drained + output[offset..] == Wire(server, log)
      && peer.maxFrame >= LOCAL_MAX_FRAME
    }

    ghost function Abs(): Conn
      requires Valid()
      reads this, openIds, ring
    {
      Conn(server, huffman, maxBody, state, firstSeen, error, peer, sendWindow, recvWindow, streams, openIds[..openCount],
           lastId, acceptedId, closed, goawayIn, goawayOut, enc, dec, assembly, |output| - offset, log,
           idleResets, earlyAnswers, earlyGoaway)
    }

    constructor (server: bool, huffman: Huffman, maxBody: nat)
      ensures Valid() && fresh(openIds) && fresh(ring) && Abs() == Init(server, huffman, maxBody) && Reached(Abs())
    {
      hide LocalSettings, Reached, RingHolds, Wire, EncodeFrame, Ascii;
      this.server, this.huffman, this.maxBody := server, huffman, maxBody;
      openIds := new nat[MAX_STREAMS](_ => 0);
      ring := new nat[256](_ => 0);
      state := if server then PrefacePending else Active;
      firstSeen, error := false, NO_ERROR;
      peer := Peer(4096, true, 0xFFFF_FFFF, 65535, 16384, 0xFFFF_FFFF);
      sendWindow, recvWindow := 65535, LOCAL_WINDOW;
      streams, openCount, lastId, acceptedId, closedNext := map[], 0, 0, 0, 0;
      goawayIn, goawayOut := MAX_ID, MAX_ID;
      enc, dec := EncState(TABLE_BYTES, TABLE_BYTES, false), DecState([], TABLE_BYTES, TABLE_BYTES);
      assembly := NO_ASSEMBLY;
      output, offset := if server then [] else PREFACE, 0;
      log, closed, drained := Empty, [], [];
      idleResets, earlyAnswers, earlyGoaway := {}, {}, false;
      new;
      NothingYet(server, output, ring[..]);
      QueueFrame(LocalSettings(server));
      InitReached(server, huffman, maxBody);
    }

    /** A client keeps its buffer compact; a server appends. */
    method QueueFrame(f: Frame)
      requires Valid()
      modifies this`output, this`offset, this`log
      ensures Valid() && Abs() == Emit(old(Abs()), f)
    {
      hide EncodeFrame, RingHolds, Wire;
      if !server && offset != 0 {
        output := output[offset..];
        offset := 0;
      }
      ghost var pending := output[offset..];
      WireGrows(server, log, drained, pending, f);
      var bytes := EncodeFrame(f);
      output := output + bytes;
      log := Then(log, Out(f));
      assert output[offset..] == pending + bytes;
    }

    /** HEADERS and as many CONTINUATION frames as it takes; the guard never ends the loop. */
    method QueueHeaderBlock(id: nat, block: seq<byte>, end: bool)
      requires Valid()
      modifies this`output, this`offset, this`log
      ensures Valid() && Abs() == EmitBlock(old(Abs()), id, block, true, end)
    {
      hide Connection.Valid, Connection.Abs, EmitBlock, HeaderFlags;
      Fields();
      var off, first, guard := 0, true, 0;
      assert block[0..] == block;
      while guard <= |block|
        invariant Valid() && off <= |block| && guard <= off && peer.maxFrame > 0
        invariant EmitBlock(old(Abs()), id, block, true, end) == EmitBlock(Abs(), id, block[off..], first, end)
        decreases |block| - guard + 1
      {
        Fields();
        var n := Min(peer.maxFrame, |block| - off);
        var last := off + n == |block|;
        BlockSplits(Abs(), id, block, off, first, end);
        QueueFrame(Frame(if first then HEADERS else CONTINUATION, HeaderFlags(last, first && end), id, block[off..off + n]));
        off, first, guard := off + n, false, guard + 1;
        if last {
          return;
        }
      }
      assert false;
    }

    /** What has been handed to the socket leaves the buffer, which is reset once empty. */
    method Drain(len: nat)
      requires Valid()
      modifies this`output, this`offset, this`drained
      ensures Valid() && Abs() == old(Abs()).(backlog := old(Abs()).backlog - Min(len, old(Abs()).backlog))
    {
      hide Connection.Valid, Connection.Abs;
      Backlog();
      Advance(Min(len, |output| - offset));
      Tidy();
    }

    method Advance(n: nat)
      requires Valid() && n <= |output| - offset
      modifies this`offset, this`drained
      ensures Valid() && n <= old(Abs()).backlog && Abs() == old(Abs()).(backlog := old(Abs()).backlog - n)
    {
      hide RingHolds, Wire;
      SplitPending(drained, output, offset, n);
      drained := drained + output[offset..offset + n];
      offset := offset + n;
    }

    /** A buffer all of which is committed starts over. */
    method Tidy()
      requires Valid()
      modifies this`output, this`offset
      ensures Valid() && Abs() == old(Abs())
    {
      hide RingHolds, Wire;
      if offset >= |output| {
        assert output[offset..] == [];
        output, offset := [], 0;
      }
    }

    /** The response callback. */
    method NotifyResponse(kind: Kind, id: nat, code: nat, fields: seq<Field>, data: seq<byte>, end: bool)
      requires Valid()
      modifies this`log
      ensures Valid() && Abs() == Notify(old(Abs()), kind, id, code, fields, data, end)
    {
      hide RingHolds;
      ghost var status := if id in streams then streams[id].status else 0;
      log := Then(log, Event(Response(kind, id, status, code, fields, data, end)));
    }

    // ---- closing and errors ----

    /** The last open id takes the place of the first that equals id. */
    method Unlist(id: nat)
      requires Valid()
      modifies this`openCount, openIds
      ensures Valid() && openIds[..openCount] == SwapRemove(old(openIds[..openCount]), id)
    {
      hide RingHolds, Wire;
      ghost var ids := openIds[..openCount];
      var i := 0;
      while i < openCount
        invariant 0 <= i <= openCount && id !in ids[..i] && openIds[..openCount] == ids && openCount == old(openCount)
      {
        if openIds[i] == id {
          FirstAt(ids, id, i);
          openIds[i] := openIds[openCount - 1];
          openCount := openCount - 1;
          assert openIds[..openCount] == ids[i := ids[|ids| - 1]][..|ids| - 1];
          return;
        }
        assert ids[..i + 1] == ids[..i] + [ids[i]];
        i := i + 1;
      }
      assert ids[..i] == ids;
    }

    method Remember(id: nat)
      requires Valid()
      modifies this`closedNext, this`closed, ring
      ensures Valid() && Abs() == old(Abs()).(closedIds := old(Abs()).closedIds + [id])
    {
      RingPushed(ring[..], closed, id);
      hide RingHolds, Wire;
      ring[closedNext % 256] := id;
      closedNext, closed := closedNext + 1, closed + [id];
    }

    method IsRecentlyClosed(id: nat) returns (r: bool)
      requires Valid()
      ensures r == RecentlyClosed(Abs(), id)
    {
      RingIsWindow(ring[..], closed, id);
      hide RingHolds, Wire;
      var n, i := if closedNext < 256 then closedNext else 256, 0;
      while i < n
        invariant 0 <= i <= n <= 256 == ring.Length && id !in ring[..i]
      {
        if ring[i] == id {
          assert ring[..n][i] == id;
          return true;
        }
        assert ring[..i + 1] == ring[..i] + [ring[i]];
        i := i + 1;
      }
      r := false;
    }

    method CloseStream(id: nat)
      requires Valid()
      modifies this`openCount, this`streams, this`closedNext, this`closed, openIds, ring
      ensures Valid() && Abs() == Http2Spec.CloseStream(old(Abs()), id)
    {
      hide Connection.Valid, SwapRemove;
      Unlist(id);
      streams := streams - {id};
      Remember(id);
    }

    /** The last opened stream is reported reset and closed. */
    method ResetLast(code: nat)
      requires Valid() && openCount > 0
      modifies this, openIds, ring
      ensures Valid() && Abs() == LastReset(old(Abs()), code) && openCount == old(openCount) - 1
    {
      hide Connection.Valid, SwapRemove, Notify;
      CountBounded();
      var id := openIds[openCount - 1];
      ghost var before := Abs().openIds;
      assert before[|before| - 1] == id && id in before;
      NotifyResponse(ResetEvent, id, code, [], [], false);
      assert Abs().openIds == before by { NotifyKeepsIds(old(Abs()), id, code); }
      CloseStream(id);
      CountBounded();
    }

    /** So with every stream of a client; the bound on turns never ends the loop. */
    method ResetClientStreams(code: nat)
      requires Valid()
      modifies this, openIds, ring
      ensures Valid() && Abs() == ResetAll(old(Abs()), code)
    {
      hide Connection.Valid, ResetAll, LastReset;
      ghost var goal := ResetAll(Abs(), code);
      CountBounded();
      if server {
        ResetNone(Abs(), code);
        return;
      }
      var i := 0;
      while i < MAX_STREAMS && openCount != 0
        invariant Valid() && goal == ResetAll(Abs(), code) && 0 <= i <= MAX_STREAMS && openCount <= MAX_STREAMS - i
      {
        CountBounded();
        ResetSome(Abs(), code);
        ResetLast(code);
        i := i + 1;
      }
      CountBounded();
      ResetNone(Abs(), code);
    }

    lemma CountBounded()
      requires Valid()
      ensures openCount <= MAX_STREAMS == openIds.Length && |Abs().openIds| == openCount
    {
    }

    method QueueGoaway(code: nat, debug: seq<byte>)
      requires Valid()
      modifies this`goawayOut, this`earlyGoaway, this`output, this`offset, this`log
      ensures Valid() && Abs() == SayGoaway(old(Abs()), code, debug)
    {
      hide Connection.Valid, GoawayFrame;
      goawayOut := Min(goawayOut, if server then acceptedId else 0);
      earlyGoaway := earlyGoaway || state.PrefacePending?;
      QueueFrame(GoawayFrame(goawayOut, code, debug));
    }

    method ConnectionError(code: nat)
      requires Valid()
      modifies this, openIds, ring
      ensures Valid() && Abs() == ConnError(old(Abs()), code)
      ensures old(Reached(Abs()) && Enabled(Abs(), Violate(code))) ==> Reached(Abs())
    {
      hide Connection.Valid, Connection.Abs, ResetAll, SayGoaway, Reached, Enabled;
      StaysReached(Abs(), Violate(code));
      Fields();
      if !state.Dead? {
        QueueGoaway(code, []);
        Die(code);
        ResetClientStreams(code);
      }
    }

    method StreamError(id: nat, code: nat)
      requires Valid()
      modifies this, openIds, ring
      ensures Valid() && Abs() == Http2Spec.StreamError(old(Abs()), id, code)
    {
      hide Connection.Valid, Connection.Abs, ConnError, Http2Spec.CloseStream, Notify, RecentlyClosed, RstFrame;
      Fields();
      if |output| - offset > MAX_BACKLOG {
        ConnectionError(ENHANCE_YOUR_CALM);
        return;
      }
      NoteIdle(id);
      QueueFrame(RstFrame(id, code));
      Fields();
      if id in streams {
        if !server {
          NotifyResponse(ResetEvent, id, code, [], [], false);
        }
        CloseStream(id);
      } else {
        var recent := IsRecentlyClosed(id);
        if !recent {
          Remember(id);
        }
      }
    }

    ghost method NoteIdle(id: nat)
      requires Valid()
      modifies this`idleResets
      ensures Valid() && Abs() == old(Abs()).(idleResets := if IdleOdd(old(Abs()), id) then old(Abs()).idleResets + {id} else old(Abs()).idleResets)
    {
      hide Connection.Valid;
      idleResets := if IdleOdd(Abs(), id) then idleResets + {id} else idleResets;
    }

    // ---- sending ----

    method Charge(id: nat, s: Stream, n: nat)
      requires Valid()
      modifies this`sendWindow, this`streams
      ensures Valid() && Abs() == SetStream(old(Abs()).(sendWindow := old(Abs()).sendWindow - n), id, s)
    {
      hide Connection.Valid;
      sendWindow, streams := sendWindow - n, streams[id := s];
    }

    /** The next n octets of a stream's body go out; with the last of them its sending half ends. */
    method SendChunk(id: nat, n: nat)
      requires Valid() && id in streams && streams[id].sendOff + n <= |streams[id].body|
      modifies this, openIds, ring
      ensures Valid() && Abs() == ChunkSent(old(Abs()), id, n)
    {
      hide Connection.Valid, Connection.Abs, Http2Spec.CloseStream, Emit;
      Fields();
      var s := streams[id];
      var last := n == |s.body| - s.sendOff;
      var s1 := s.(sendOff := s.sendOff + n, sendWindow := s.sendWindow - n);
      var s2 := if last then s1.(sendPending := false, state := AfterDataSent(s.state, true)) else s1;
      QueueFrame(Frame(DATA, if last then 1 else 0, id, s.body[s.sendOff..s.sendOff + n]));
      EmitKeeps(old(Abs()), Frame(DATA, if last then 1 else 0, id, s.body[s.sendOff..s.sendOff + n]));
      Charge(id, s2, n);
      if last && s2.state.Closed? {
        CloseStream(id);
      }
    }

    /** One DATA frame of a stream, as large as the windows, the peer and, for a client, the buffer allow. */
    method PumpStream(id: nat) returns (progress: bool)
      requires Valid()
      modifies this, openIds, ring
      ensures Valid() && Pumped(Abs(), progress) == Http2Spec.PumpStream(old(Abs()), id)
    {
      hide Connection.Valid, ChunkSent, Http2Spec.PumpStream;
      Backlog();
      PumpUnfolds(Abs(), id);
      if id !in streams {
        return false;
      }
      var s := streams[id];
      if !s.sendPending || s.sendOff > |s.body| {
        return false;
      }
      var window := Min(sendWindow, s.sendWindow);
      if window <= 0 {
        return false;
      }
      var n := Min(Min(|s.body| - s.sendOff, if server then peer.maxFrame else LOCAL_MAX_FRAME), window);
      if !server && |output| - offset + HEADER_BYTES + n > MAX_BACKLOG {
        return false;
      }
      SendChunk(id, n);
      progress := true;
    }

    /** One pass over a snapshot of the open ids. */
    method PumpPass() returns (progress: bool)
      requires Valid()
      modifies this, openIds, ring
      ensures Valid() && Pumped(Abs(), progress) == Http2Spec.PumpPass(old(Abs()), old(Abs()).openIds)
    {
      hide Connection.Valid, Http2Spec.PumpStream, Http2Spec.PumpPass;
      CountBounded();
      var ids := openIds[..openCount];
      ghost var goal := Http2Spec.PumpPass(Abs(), ids);
      progress := false;
      var i := 0;
      assert ids[0..] == ids;
      while i < |ids|
        invariant 0 <= i <= |ids| && Valid()
        invariant var rest := Http2Spec.PumpPass(Abs(), ids[i..]); goal == Pumped(rest.c, progress || rest.progress)
      {
        PassStep(Abs(), ids, i);
        var sent := PumpStream(ids[i]);
        progress := progress || sent;
        i := i + 1;
      }
      assert ids[i..] == [];
      PassEnd(Abs());
    }

    /** Round robin until nothing moves; the bound on passes never ends the loop. */
    method PumpData()
      requires Valid()
      modifies this, openIds, ring
      ensures Valid() && Abs() == Pump(old(Abs()))
    {
      hide Connection.Valid, Http2Spec.PumpPass, Http2Spec.PumpData;
      ghost var goal := Http2Spec.PumpData(Abs(), MAX_PASSES);
      var pass := 0;
      while pass < MAX_PASSES
        invariant 0 <= pass <= MAX_PASSES && Valid() && goal == Http2Spec.PumpData(Abs(), MAX_PASSES - pass)
      {
        DataStep(Abs(), MAX_PASSES - pass);
        if sendWindow <= 0 {
          return;
        }
        var progress := PumpPass();
        if !progress {
          return;
        }
        pass := pass + 1;
      }
      DataEnd(Abs());
    }

    // ---- single updates ----

    method PutStream(id: nat, s: Stream)
      requires Valid()
      modifies this`streams
      ensures Valid() && Abs() == SetStream(old(Abs()), id, s)
    {
      hide Connection.Valid;
      streams := streams[id := s];
    }

    method Announced()
      requires Valid()
      modifies this`enc
      ensures Valid() && Abs() == old(Abs()).(enc := old(Abs()).enc.(pending := false))
    {
      hide Connection.Valid;
      enc := enc.(pending := false);
    }

    /** Nothing but the history knows of this moment. */
    ghost method Begins(id: nat, fields: seq<Field>, block: seq<byte>, body: seq<byte>, early: bool)
      requires Valid()
      modifies this`log, this`earlyAnswers
      ensures Valid()
      ensures Abs() == Log(old(Abs()).(earlyAnswers := if early then old(Abs()).earlyAnswers + {id} else old(Abs()).earlyAnswers), Begin(id, fields, block, body))
    {
      hide RingHolds;
      log := Then(log, Begin(id, fields, block, body));
      earlyAnswers := if early then earlyAnswers + {id} else earlyAnswers;
    }

    // ---- application calls ----

    method Answer(id: nat, ghost fields: seq<Field>, block: seq<byte>, body: seq<byte>)
      requires Valid() && id in streams
      modifies this, openIds, ring
      ensures Valid() && Abs() == Http2Spec.Answer(old(Abs()), id, fields, block, body)
    {
      hide Connection.Valid, Connection.Abs, EmitBlock, Pump, Http2Spec.CloseStream;
      Fields();
      var s := streams[id];
      Begins(id, fields, block, body, !s.complete);
      QueueHeaderBlock(id, block, body == []);
      BlockKeeps(Log(old(Abs()).(earlyAnswers := if s.complete then old(Abs()).earlyAnswers else old(Abs()).earlyAnswers + {id}), Begin(id, fields, block, body)),
                 id, block, true, body == []);
      s := s.(state := AfterHeadersSent(s.state, body == []));
      if body == [] {
        PutStream(id, s);
        if s.state.Closed? {
          CloseStream(id);
        }
      } else {
        PutStream(id, s.(body := body, sendOff := 0, sendPending := true));
        PumpData();
      }
    }

    method SendResponse(id: nat, status: nat, headers: seq<AppHeader>, body: seq<byte>)
      requires Valid()
      modifies this, openIds, ring
      ensures Valid() && Abs() == Keep(old(Abs()), Http2Spec.SendResponse(old(Abs()), id, status, headers, body))
      ensures old(Reached(Abs()) && Enabled(Abs(), Respond(id, status, headers, body))) ==> Reached(Abs())
    {
      hide Connection.Valid, Connection.Abs, Http2Spec.Answer, Http2Spec.StreamError, EncodeBlock, AnswerFields, Reached, Enabled;
      StaysReached(Abs(), Respond(id, status, headers, body));
      Fields();
      if !server || id !in streams || state.Dead? {
        return;
      }
      var s := streams[id];
      if !CanSend(s.state) || s.sendPending {
        return;
      }
      var code := if 100 <= status <= 999 then status else 500;
      var fields := AnswerFields(code, headers);
      var block := EncodeBlock(huffman, enc, fields);
      if |block| > MAX_RESPONSE_BLOCK {
        StreamError(id, INTERNAL_ERROR);
        return;
      }
      Announced();
      Fields();
      Answer(id, fields, block, if s.isHead || code == 204 || code == 304 then [] else body);
    }

    /** What a request must satisfy beyond the rules for any section. */
    method ValidateRequest(fields: seq<Field>, bodySize: nat) returns (ok: bool, isHead: bool)
      requires Valid()
      ensures ok == RequestOk(Abs(), fields, bodySize) && (ok ==> isHead == IsHeadRequest(fields))
    {
      hide Connection.Valid, Connection.Abs, WellFormed, DeclaredLength, IsHeadRequest, ValidMethod, ValidScheme, Ascii, ListSize;
      Fields();
      ok, isHead := false, false;
      if |fields| == 0 {
        return;
      }
      var facts := Http2Validate.ValidateFields(fields, false, false);
      if facts.Invalid? || (facts.length.Some? && facts.length.value != bodySize) {
        return;
      }
      var size, i := 0, 0;
      NoSize();
      assert fields[..0] == [];
      while i < |fields|
        invariant 0 <= i <= |fields| && size == ListSize(fields[..i])
        invariant forall j | 0 <= j < i :: TargetOk(fields[j])
      {
        Http2Validate.SizeStep(fields, i);
        size := size + |fields[i].name| + |fields[i].value| + 32;
        if fields[i].name == Ascii(":method") && (!ValidMethod(fields[i].value) || fields[i].value == Ascii("CONNECT")) {
          assert fields[i] in fields;
          return;
        }
        if fields[i].name == Ascii(":scheme") && !ValidScheme(fields[i].value) {
          assert fields[i] in fields;
          return;
        }
        i := i + 1;
      }
      assert fields[..i] == fields;
      isHead := facts.isHead;
      ok := size <= peer.maxHeaderList;
    }

    ghost method Opens(id: nat, fields: seq<Field>)
      requires Valid()
      modifies this`log
      ensures Valid() && Abs() == Log(old(Abs()), Opened(id, fields))
    {
      hide RingHolds;
      log := Then(log, Opened(id, fields));
    }

    /** A new stream joins the table. */
    method AddStream(id: nat, s: Stream, accept: bool)
      requires Valid() && openCount < MAX_STREAMS
      modifies this`streams, this`openCount, this`lastId, this`acceptedId, openIds
      ensures Valid()
      ensures var c := old(Abs());
              Abs() == c.(streams := c.streams[id := s], openIds := c.openIds + [id], lastId := id,
                          acceptedId := if accept then id else c.acceptedId)
    {
      hide Connection.Valid;
      Enlist(id);
      streams, lastId := streams[id := s], id;
      acceptedId := if accept then id else acceptedId;
    }

    method Enlist(id: nat)
      requires Valid() && openCount < MAX_STREAMS
      modifies this`openCount, openIds
      ensures Valid() && openCount == old(openCount) + 1 && openIds[..openCount] == old(openIds[..openCount]) + [id]
    {
      hide RingHolds, Wire;
      openIds[openCount] := id;
      openCount := openCount + 1;
    }

    /** The stream is entered and its request sent. */
    method Launch(id: nat, s: Stream, fields: seq<Field>, block: seq<byte>, body: seq<byte>)
      requires Valid() && openCount < MAX_STREAMS
      modifies this, openIds, ring
      ensures Valid()
      ensures var c := old(Abs());
              var c1 := Log(c.(enc := c.enc.(pending := false), lastId := id,
                               streams := c.streams[id := s], openIds := c.openIds + [id]), Opened(id, fields));
              Abs() == Pump(EmitBlock(Log(c1, Begin(id, fields, block, body)), id, block, true, body == []))
    {
      hide Connection.Valid, Connection.Abs, EmitBlock, Pump;
      Announced();
      Fields();
      AddStream(id, s, false);
      Opens(id, fields);
      Begins(id, fields, block, body, false);
      QueueHeaderBlock(id, block, body == []);
      PumpData();
    }

    method SendRequest(fields: seq<Field>, body: seq<byte>)
      requires Valid()
      modifies this, openIds, ring
      ensures Valid() && Abs() == Keep(old(Abs()), Http2Spec.SendRequest(old(Abs()), fields, body))
      ensures old(Reached(Abs()) && Enabled(Abs(), Ask(fields, body))) ==> Reached(Abs())
    {
      hide Connection.Valid, Connection.Abs, EmitBlock, Pump, EncodeBlock, RequestOk, IsHeadRequest, Reached, Enabled;
      StaysReached(Abs(), Ask(fields, body));
      Fields();
      if server || !state.Active? {
        return;
      }
      if || |fields| > MAX_HEADERS || |body| > MAX_REQUEST_BODY || openCount >= MAX_STREAMS || openCount >= peer.maxStreams
         || lastId >= MAX_ID || |output| - offset > MAX_BACKLOG {
        return;
      }
      var ok, isHead := ValidateRequest(fields, |body|);
      if !ok {
        return;
      }
      var block := EncodeBlock(huffman, enc, fields);
      if |block| > MAX_RESPONSE_BLOCK {
        return;
      }
      var id := if lastId == 0 then 1 else lastId + 2;
      var s := Stream(if body == [] then HalfClosedLocal else Open, peer.window, LOCAL_WINDOW,
                      body, 0, body != [], isHead, false, 0, 0, [], false, 0);
      Launch(id, s, fields, block, body);
    }

    method SendRst(id: nat, code: nat)
      requires Valid()
      modifies this, openIds, ring
      ensures Valid() && Abs() == Keep(old(Abs()), Http2Spec.SendRst(old(Abs()), id, code))
      ensures old(Reached(Abs()) && Enabled(Abs(), Reset(id, code))) ==> Reached(Abs())
    {
      hide Connection.Valid, Connection.Abs, Http2Spec.StreamError, Reached, Enabled;
      StaysReached(Abs(), Reset(id, code));
      Fields();
      if id == 0 || (!server && id !in streams) {
        return;
      }
      StreamError(id, code);
    }

    method SendGoaway(code: nat, debug: seq<byte>)
      requires Valid()
      modifies this, openIds, ring
      ensures Valid() && Abs() == Keep(old(Abs()), Http2Spec.SendGoaway(old(Abs()), code, debug))
      ensures old(Reached(Abs()) && Enabled(Abs(), Goaway(code, debug))) ==> Reached(Abs())
    {
      hide Connection.Valid, Connection.Abs, ConnError, SayGoaway, ResetAll, Reached, Enabled;
      StaysReached(Abs(), Goaway(code, debug));
      Fields();
      if state.Dead? {
        return;
      }
      if !server && |output| - offset > MAX_BACKLOG {
        ConnectionError(ENHANCE_YOUR_CALM);
        return;
      }
      QueueGoaway(code, debug[..Min(|debug|, LOCAL_MAX_FRAME - 8)]);
      Fields();
      if code != NO_ERROR {
        Die(code);
        ResetClientStreams(code);
      } else if state.Active? {
        Become(GoawaySent);
      }
    }

    method Die(code: nat)
      requires Valid()
      modifies this`error, this`state
      ensures Valid() && Abs() == old(Abs()).(error := code, state := Dead)
    {
      hide Connection.Valid;
      error, state := code, Dead;
    }

    method Become(s: ConnState)
      requires Valid()
      modifies this`state
      ensures Valid() && Abs() == old(Abs()).(state := s)
    {
      hide Connection.Valid;
      state := s;
    }

    /** The last octet of the client preface has arrived. */
    method Prefaced()
      requires Valid()
      modifies this`state
      ensures Valid() && Abs() == old(Abs()).(state := Active)
      ensures old(Reached(Abs()) && Enabled(Abs(), Step.Prefaced)) ==> Reached(Abs())
    {
      hide Connection.Valid, Connection.Abs, Reached, Enabled;
      StaysReached(Abs(), Step.Prefaced);
      Become(Active);
    }

    method CommitOutput(len: nat)
      requires Valid()
      modifies this, openIds, ring
      ensures Valid() && Abs() == Commit(old(Abs()), len)
      ensures old(Reached(Abs()) && Enabled(Abs(), Step.Drain(len))) ==> Reached(Abs())
    {
      hide Connection.Valid, Connection.Abs, Pump, Reached, Enabled;
      StaysReached(Abs(), Step.Drain(len));
      Fields();
      Drain(len);
      Fields();
      if !server && !state.Dead? {
        PumpData();
      }
    }

    // ---- receiving: settings, windows and shutdown ----

    /** Each open stream's window moves by delta, up to the first that would overflow. */
    method AdjustWindows(delta: int) returns (ok: bool)
      requires Valid()
      modifies this`streams
      ensures Valid()
      ensures var a := Adjust(old(streams), old(Abs()).openIds, delta);
              ok == a.ok && Abs() == old(Abs()).(streams := a.streams)
    {
      hide Connection.Valid, Adjust;
      CountBounded();
      ghost var ids, goal := openIds[..openCount], Adjust(streams, openIds[..openCount], delta);
      var i := 0;
      assert ids[0..] == ids;
      while i < openCount
        invariant 0 <= i <= openCount == |ids| && openCount <= openIds.Length && ids == openIds[..openCount]
        invariant goal == Adjust(streams, ids[i..], delta)
      {
        AdjustStep(streams, ids, i, delta);
        var id := openIds[i];
        if id in streams {
          var w := streams[id].sendWindow + delta;
          if w > MAX_WINDOW {
            return false;
          }
          streams := streams[id := streams[id].(sendWindow := w)];
        }
        i := i + 1;
      }
      assert ids[i..] == [];
      AdjustEnd(streams, delta);
      ok := true;
    }

    method ApplyWindow(v: nat)
      requires Valid()
      modifies this, openIds, ring
      ensures Valid() && Abs() == Http2Spec.ApplyWindow(old(Abs()), v)
    {
      hide Connection.Valid, Connection.Abs, Adjust, ConnError;
      Fields();
      if v > MAX_WINDOW {
        ConnectionError(FLOW_CONTROL_ERROR);
        return;
      }
      var ok := AdjustWindows(v - peer.window);
      Fields();
      if ok {
        SetPeer(peer.(window := v));
      } else {
        ConnectionError(FLOW_CONTROL_ERROR);
      }
    }

    method SetPeer(p: Peer)
      requires Valid() && p.maxFrame >= LOCAL_MAX_FRAME
      modifies this`peer
      ensures Valid() && Abs() == old(Abs()).(peer := p)
    {
      hide RingHolds, Wire;
      peer := p;
    }

    /** set_max_table_size of the encoder. */
    method SetTableSize(v: nat)
      requires Valid()
      modifies this`enc
      ensures Valid() && Abs() == old(Abs()).(enc := Announce(old(Abs()).enc, v))
    {
      hide Connection.Valid;
      enc := Announce(enc, v);
    }

    method ApplySetting(id: nat, v: nat)
      requires Valid()
      modifies this, openIds, ring
      ensures Valid() && Abs() == Http2Spec.ApplySetting(old(Abs()), id, v)
    {
      hide Connection.Valid, Connection.Abs, Http2Spec.ApplyWindow, ConnError, Announce;
      Fields();
      if id == 1 {
        SetPeer(peer.(tableSize := v));
        SetTableSize(v);
      } else if id == 2 {
        if !server || v > 1 {
          ConnectionError(PROTOCOL_ERROR);
          return;
        }
        SetPeer(peer.(push := v == 1));
      } else if id == 3 {
        SetPeer(peer.(maxStreams := v));
      } else if id == 4 {
        ApplyWindow(v);
      } else if id == 5 {
        if v < 16384 || v > 16777215 {
          ConnectionError(PROTOCOL_ERROR);
          return;
        }
        SetPeer(peer.(maxFrame := v));
      } else if id == 6 {
        SetPeer(peer.(maxHeaderList := v));
      }
    }

    method ApplySettings(payload: seq<byte>)
      requires Valid() && |payload| % 6 == 0
      modifies this, openIds, ring
      ensures Valid() && Abs() == Http2Spec.ApplySettings(old(Abs()), payload)
    {
      hide Connection.Valid, Connection.Abs, Http2Spec.ApplySetting, Http2Spec.ApplySettings;
      ghost var goal := Http2Spec.ApplySettings(Abs(), payload);
      var rest := payload;
      while |rest| > 0
        invariant Valid() && |rest| % 6 == 0 && goal == Http2Spec.ApplySettings(Abs(), rest)
        decreases |rest|
      {
        SettingsStep(Abs(), rest);
        ApplySetting(GetU16(rest[..2]), GetU32(rest[2..6]));
        Fields();
        if state.Dead? {
          return;
        }
        rest := rest[6..];
      }
      SettingsEnd(Abs());
    }

    method HandleSettings(f: Frame)
      requires Valid()
      modifies this, openIds, ring
      ensures Valid() && Abs() == Http2Spec.HandleSettings(old(Abs()), f)
    {
      hide Connection.Valid, Connection.Abs, Http2Spec.ApplySettings, ConnError, Pump;
      Fields();
      if f.id != 0 {
        ConnectionError(PROTOCOL_ERROR);
      } else if Bit0(f.flags) {
        if |f.payload| != 0 {
          ConnectionError(FRAME_SIZE_ERROR);
        }
      } else if |f.payload| % 6 != 0 {
        ConnectionError(FRAME_SIZE_ERROR);
      } else {
        ApplySettings(f.payload);
        Fields();
        if !state.Dead? {
          if |output| - offset > MAX_BACKLOG {
            ConnectionError(ENHANCE_YOUR_CALM);
          } else {
            QueueFrame(Frame(SETTINGS, 1, 0, []));
            PumpData();
          }
        }
      }
    }

    method HandlePing(f: Frame)
      requires Valid()
      modifies this, openIds, ring
      ensures Valid() && Abs() == Http2Spec.HandlePing(old(Abs()), f)
    {
      hide Connection.Valid, Connection.Abs, ConnError;
      Fields();
      if f.id != 0 {
        ConnectionError(PROTOCOL_ERROR);
      } else if |f.payload| != 8 {
        ConnectionError(FRAME_SIZE_ERROR);
      } else if !Bit0(f.flags) {
        if |output| - offset > MAX_BACKLOG {
          ConnectionError(ENHANCE_YOUR_CALM);
        } else {
          QueueFrame(Frame(PING, 1, 0, f.payload));
        }
      }
    }

    method HandlePriority(f: Frame)
      requires Valid()
      modifies this, openIds, ring
      ensures Valid() && Abs() == Http2Spec.HandlePriority(old(Abs()), f)
    {
      hide Connection.Valid, Connection.Abs, ConnError, Http2Spec.StreamError;
      if f.id == 0 {
        ConnectionError(PROTOCOL_ERROR);
      } else if |f.payload| != 5 {
        StreamError(f.id, FRAME_SIZE_ERROR);
      } else if Low31(f.payload) == f.id {
        StreamError(f.id, PROTOCOL_ERROR);
      }
    }

    method HandleRst(f: Frame)
      requires Valid()
      modifies this, openIds, ring
      ensures Valid() && Abs() == Http2Spec.HandleRst(old(Abs()), f)
    {
      hide Connection.Valid, Connection.Abs, ConnError, Notify, Http2Spec.CloseStream;
      Fields();
      if f.id == 0 {
        ConnectionError(PROTOCOL_ERROR);
      } else if |f.payload| != 4 {
        ConnectionError(FRAME_SIZE_ERROR);
      } else if f.id % 2 == 0 || f.id > lastId {
        ConnectionError(PROTOCOL_ERROR);
      } else if f.id in streams {
        if !server {
          NotifyResponse(ResetEvent, f.id, GetU32(f.payload), [], [], false);
        }
        CloseStream(f.id);
      }
    }

    /** Streams above the cutoff, in the order of a snapshot. */
    method ResetBeyond(cutoff: nat)
      requires Valid()
      modifies this, openIds, ring
      ensures Valid() && Abs() == ResetAbove(old(Abs()), old(Abs()).openIds, cutoff)
    {
      hide Connection.Valid, ResetAbove, Notify, Http2Spec.CloseStream;
      CountBounded();
      var ids := openIds[..openCount];
      ghost var goal := ResetAbove(Abs(), ids, cutoff);
      var i := 0;
      assert ids[0..] == ids;
      while i < |ids|
        invariant 0 <= i <= |ids| && Valid() && goal == ResetAbove(Abs(), ids[i..], cutoff)
      {
        AboveStep(Abs(), ids, i, cutoff);
        if ids[i] > cutoff {
          NotifyResponse(ResetEvent, ids[i], NO_ERROR, [], [], false);
          CloseStream(ids[i]);
        }
        i := i + 1;
      }
      assert ids[i..] == [];
      AboveEnd(Abs(), cutoff);
    }

    method SetGoawayIn(cutoff: nat)
      requires Valid()
      modifies this`goawayIn
      ensures Valid() && Abs() == old(Abs()).(goawayIn := cutoff)
    {
      hide Connection.Valid;
      goawayIn := cutoff;
    }

    method HandleGoaway(f: Frame)
      requires Valid()
      modifies this, openIds, ring
      ensures Valid() && Abs() == Http2Spec.HandleGoaway(old(Abs()), f)
    {
      hide Connection.Valid, Connection.Abs, ConnError, ResetAll, ResetAbove;
      Fields();
      if f.id != 0 {
        ConnectionError(PROTOCOL_ERROR);
        return;
      }
      if |f.payload| < 8 {
        ConnectionError(FRAME_SIZE_ERROR);
        return;
      }
      if state.Active? {
        Become(GoawayReceived);
      }
      if server {
        return;
      }
      Fields();
      var code := GetU32(f.payload[4..8]);
      if code != NO_ERROR {
        ResetClientStreams(code);
        return;
      }
      var cutoff := Min(goawayIn, Low31(f.payload));
      SetGoawayIn(cutoff);
      ResetBeyond(cutoff);
    }

    method HandleWindowUpdate(f: Frame)
      requires Valid()
      modifies this, openIds, ring
      ensures Valid() && Abs() == Http2Spec.HandleWindowUpdate(old(Abs()), f)
    {
      hide Connection.Valid, Connection.Abs, ConnError, Http2Spec.StreamError, Pump, Low31;
      Fields();
      if |f.payload| != 4 {
        ConnectionError(FRAME_SIZE_ERROR);
        return;
      }
      var inc := Low31(f.payload);
      if f.id == 0 {
        if inc == 0 {
          ConnectionError(PROTOCOL_ERROR);
        } else if sendWindow + inc > MAX_WINDOW {
          ConnectionError(FLOW_CONTROL_ERROR);
        } else {
          Credit(inc);
          PumpData();
        }
      } else if f.id % 2 == 0 || f.id > lastId {
        ConnectionError(PROTOCOL_ERROR);
      } else if f.id in streams {
        if inc == 0 {
          StreamError(f.id, PROTOCOL_ERROR);
        } else if streams[f.id].sendWindow + inc > MAX_WINDOW {
          StreamError(f.id, FLOW_CONTROL_ERROR);
        } else {
          PutStream(f.id, streams[f.id].(sendWindow := streams[f.id].sendWindow + inc));
          PumpData();
        }
      }
    }

    method Credit(inc: nat)
      requires Valid()
      modifies this`sendWindow
      ensures Valid() && Abs() == old(Abs()).(sendWindow := old(Abs()).sendWindow + inc)
    {
      hide Connection.Valid;
      sendWindow := sendWindow + inc;
    }

    // ---- receiving: header blocks ----

    method SetAssembly(a: Assembly)
      requires Valid()
      modifies this`assembly
      ensures Valid() && Abs() == old(Abs()).(assembly := a)
    {
      hide Connection.Valid;
      assembly := a;
    }

    method SetDecoder(d: DecState)
      requires Valid()
      modifies this`dec
      ensures Valid() && Abs() == old(Abs()).(dec := d)
    {
      hide Connection.Valid;
      dec := d;
    }

    method SetLastId(id: nat)
      requires Valid()
      modifies this`lastId
      ensures Valid() && Abs() == old(Abs()).(lastId := id)
    {
      hide Connection.Valid;
      lastId := id;
    }

    method HandleHeaders(f: Frame)
      requires Valid()
      modifies this, openIds, ring
      ensures Valid() && Abs() == Http2Spec.HandleHeaders(old(Abs()), f)
    {
      hide Connection.Valid, Connection.Abs, ConnError, Http2Spec.FinishBlock, Low31;
      if f.id == 0 {
        ConnectionError(PROTOCOL_ERROR);
        return;
      }
      var p, pad, off, selfDependent := f.payload, 0, 0, false;
      if Bit3(f.flags) {
        if |p| < 1 {
          ConnectionError(FRAME_SIZE_ERROR);
          return;
        }
        pad, off := p[0], 1;
      }
      if Bit5(f.flags) {
        if |p| < off + 5 {
          ConnectionError(FRAME_SIZE_ERROR);
          return;
        }
        selfDependent := Low31(p[off..]) == f.id;
        off := off + 5;
      }
      if off + pad > |p| {
        ConnectionError(PROTOCOL_ERROR);
        return;
      }
      var a := Assembly(f.id, Bit0(f.flags), selfDependent, p[off..|p| - pad]);
      assert FragmentOf(f) == Fragment(a.bytes, selfDependent);
      if Bit2(f.flags) {
        FinishBlock(a);
      } else {
        SetAssembly(a);
      }
    }

    method HandleContinuation(f: Frame)
      requires Valid()
      modifies this, openIds, ring
      ensures Valid() && Abs() == Http2Spec.HandleContinuation(old(Abs()), f)
    {
      hide Connection.Valid, Connection.Abs, ConnError, Http2Spec.FinishBlock;
      Fields();
      var a := assembly;
      if a.id == 0 || f.id != a.id {
        ConnectionError(PROTOCOL_ERROR);
        return;
      }
      if |a.bytes| + |f.payload| > MAX_HEADER_BLOCK {
        ConnectionError(ENHANCE_YOUR_CALM);
        return;
      }
      a := a.(bytes := a.bytes + f.payload);
      if Bit2(f.flags) {
        SetAssembly(NO_ASSEMBLY);
        FinishBlock(a);
      } else {
        SetAssembly(a);
      }
    }

    /** The decoder sees every completed block first. */
    method FinishBlock(a: Assembly)
      requires Valid()
      modifies this, openIds, ring
      ensures Valid() && Abs() == Http2Spec.FinishBlock(old(Abs()), a)
    {
      hide Connection.Valid, Connection.Abs, ConnError, Http2Spec.FinishRequestBlock, Http2Spec.FinishResponseBlock, DecodeBlock;
      Fields();
      var decoded := DecodeBlock(huffman, dec, a.bytes, false);
      SetDecoder(decoded.st);
      if !decoded.ok {
        ConnectionError(COMPRESSION_ERROR);
        return;
      }
      var tooMany := |decoded.fields| > MAX_HEADERS;
      var fields := if tooMany then decoded.fields[..MAX_HEADERS] else decoded.fields;
      if server {
        FinishRequestBlock(a, fields, tooMany);
      } else {
        FinishResponseBlock(a, fields, tooMany);
      }
    }

    method FinishRequestBlock(a: Assembly, fields: seq<Field>, tooMany: bool)
      requires Valid()
      modifies this, openIds, ring
      ensures Valid() && Abs() == Http2Spec.FinishRequestBlock(old(Abs()), a, fields, tooMany)
    {
      hide Connection.Valid, Connection.Abs, ConnError, Http2Spec.StreamError, Http2Spec.OpenStream, Http2Spec.CompleteRequest,
           WellFormed, RecentlyClosed, DeclaredLength, IsHeadRequest, StatusOf;
      Fields();
      if a.id in streams {
        FinishTrailers(a, fields, tooMany);
        return;
      }
      if a.id % 2 == 0 {
        ConnectionError(PROTOCOL_ERROR);
        return;
      }
      if a.id <= lastId {
        var recent := IsRecentlyClosed(a.id);
        ConnectionError(if recent then STREAM_CLOSED else PROTOCOL_ERROR);
        return;
      }
      SetLastId(a.id);
      Fields();
      if !state.Active? {
        StreamError(a.id, REFUSED_STREAM);
      } else if a.selfDependent {
        StreamError(a.id, PROTOCOL_ERROR);
      } else if tooMany || openCount >= MAX_STREAMS {
        StreamError(a.id, REFUSED_STREAM);
      } else {
        var facts := Http2Validate.ValidateFields(fields, false, false);
        if facts.Invalid? {
          StreamError(a.id, PROTOCOL_ERROR);
        } else {
          OpenStream(a.id, a.end, fields, facts);
        }
      }
    }

    /** A second block on a stream is its trailer section. */
    method FinishTrailers(a: Assembly, fields: seq<Field>, tooMany: bool)
      requires Valid() && a.id in streams
      modifies this, openIds, ring
      ensures Valid() && Abs() == Http2Spec.FinishRequestBlock(old(Abs()), a, fields, tooMany)
    {
      hide Connection.Valid, Connection.Abs, ConnError, Http2Spec.StreamError, Http2Spec.OpenStream, Http2Spec.CompleteRequest,
           WellFormed, RecentlyClosed, DeclaredLength, IsHeadRequest, StatusOf;
      Fields();
      if a.selfDependent {
        StreamError(a.id, PROTOCOL_ERROR);
        return;
      }
      var s := streams[a.id];
      if !CanReceive(s.state) {
        StreamError(a.id, STREAM_CLOSED);
        return;
      }
      var facts := Http2Validate.ValidateFields(fields, true, false);
      if !a.end || tooMany || facts.Invalid? {
        StreamError(a.id, PROTOCOL_ERROR);
      } else {
        CompleteRequest(a.id, s.(state := AfterHeadersReceived(s.state, true)));
      }
    }

    method OpenStream(id: nat, end: bool, fields: seq<Field>, facts: Http2Validate.Facts)
      requires Valid() && openCount < MAX_STREAMS && lastId == id
      requires facts.Facts? && facts.length == DeclaredLength(fields) && facts.isHead == IsHeadRequest(fields)
      modifies this, openIds, ring
      ensures Valid() && Abs() == Http2Spec.OpenStream(old(Abs()), id, end, fields)
    {
      hide Connection.Valid, Connection.Abs, Http2Spec.CompleteRequest, DeclaredLength, IsHeadRequest;
      Fields();
      var s := Stream(AfterHeadersReceived(Idle, end), peer.window, LOCAL_WINDOW, [], 0, false,
                      facts.isHead, facts.length.Some?, if facts.length.Some? then facts.length.value else 0, 0, [], false, 0);
      AddStream(id, s, true);
      Opens(id, fields);
      if end {
        CompleteRequest(id, s);
      }
    }

    /** The request callback. */
    ghost method Reports(id: nat, content: seq<byte>)
      requires Valid()
      modifies this`log
      ensures Valid() && Abs() == Log(old(Abs()), Request(id, content))
    {
      hide RingHolds;
      log := Then(log, Request(id, content));
    }

    method CompleteRequest(id: nat, s: Stream)
      requires Valid()
      modifies this, openIds, ring
      ensures Valid() && Abs() == Http2Spec.CompleteRequest(old(Abs()), id, s)
    {
      hide Connection.Valid, Connection.Abs, Http2Spec.StreamError;
      if s.hasLength && s.received != s.length {
        StreamError(id, PROTOCOL_ERROR);
        return;
      }
      PutStream(id, s.(complete := true));
      Reports(id, s.content);
    }

    method FinishResponseBlock(a: Assembly, fields: seq<Field>, tooMany: bool)
      requires Valid()
      modifies this, openIds, ring
      ensures Valid() && Abs() == Http2Spec.FinishResponseBlock(old(Abs()), a, fields, tooMany)
    {
      hide Connection.Valid, Connection.Abs, ConnError, Http2Spec.StreamError, Http2Spec.ResponseTrailer, Http2Spec.ResponseHead;
      Fields();
      if a.id % 2 == 0 || a.id > lastId {
        ConnectionError(PROTOCOL_ERROR);
      } else if a.id !in streams || !CanReceive(streams[a.id].state) {
        StreamError(a.id, STREAM_CLOSED);
      } else if a.selfDependent || tooMany {
        StreamError(a.id, PROTOCOL_ERROR);
      } else if streams[a.id].status != 0 {
        ResponseTrailer(a, fields);
      } else {
        ResponseHead(a, fields);
      }
    }

    method ResponseTrailer(a: Assembly, fields: seq<Field>)
      requires Valid() && a.id in streams
      modifies this, openIds, ring
      ensures Valid() && Abs() == Http2Spec.ResponseTrailer(old(Abs()), a, fields)
    {
      hide Connection.Valid, Connection.Abs, Http2Spec.StreamError, Http2Spec.CompleteResponse, Notify, WellFormed, DeclaredLength, StatusOf;
      Fields();
      var facts := Http2Validate.ValidateFields(fields, true, true);
      if facts.Invalid? || !a.end || facts.length.Some? {
        StreamError(a.id, PROTOCOL_ERROR);
        return;
      }
      var s := streams[a.id];
      s := s.(state := AfterHeadersReceived(s.state, true));
      PutStream(a.id, s);
      NotifyResponse(TrailersEvent, a.id, NO_ERROR, fields, [], true);
      CompleteResponse(a.id, s);
    }

    method ResponseHead(a: Assembly, fields: seq<Field>)
      requires Valid() && a.id in streams
      modifies this, openIds, ring
      ensures Valid() && Abs() == Http2Spec.ResponseHead(old(Abs()), a, fields)
    {
      hide Connection.Valid, Connection.Abs, Http2Spec.StreamError, Http2Spec.CompleteResponse, Notify, WellFormed, DeclaredLength, StatusOf;
      Fields();
      var facts := Http2Validate.ValidateFields(fields, false, true);
      if facts.Invalid? {
        StreamError(a.id, PROTOCOL_ERROR);
        return;
      }
      var status, hasLength := facts.status, facts.length.Some?;
      if (status < 200 && (status == 101 || a.end || hasLength)) || (status == 204 && hasLength) {
        StreamError(a.id, PROTOCOL_ERROR);
        return;
      }
      var s := streams[a.id];
      s := s.(status := status, hasLength := hasLength && !s.isHead && status != 304,
              length := if hasLength then facts.length.value else 0);
      PutStream(a.id, s);
      NotifyResponse(HeadersEvent, a.id, NO_ERROR, fields, [], a.end);
      if status < 200 {
        PutStream(a.id, s.(status := 0));
      } else if a.end {
        CompleteResponse(a.id, s.(state := AfterHeadersReceived(s.state, true)));
      }
    }

    method CompleteResponse(id: nat, s: Stream)
      requires Valid()
      modifies this, openIds, ring
      ensures Valid() && Abs() == Http2Spec.CompleteResponse(old(Abs()), id, s)
    {
      hide Connection.Valid, Connection.Abs, Http2Spec.StreamError, Http2Spec.CloseStream, Notify, RstFrame, Emit;
      if s.hasLength && s.length != s.received {
        StreamError(id, PROTOCOL_ERROR);
        return;
      }
      if !s.state.Closed? {
        QueueFrame(RstFrame(id, NO_ERROR));
      }
      NotifyResponse(CompleteEvent, id, NO_ERROR, [], [], true);
      CloseStream(id);
    }

    // ---- receiving: DATA ----

    method SetRecvWindow(w: int)
      requires Valid()
      modifies this`recvWindow
      ensures Valid() && Abs() == old(Abs()).(recvWindow := w)
    {
      hide Connection.Valid;
      recvWindow := w;
    }

    method ReplenishConn()
      requires Valid()
      modifies this, openIds, ring
      ensures Valid() && Abs() == Http2Spec.ReplenishConn(old(Abs()))
    {
      hide Connection.Valid, Connection.Abs, WindowFrame, Emit;
      Fields();
      if recvWindow <= LOCAL_WINDOW / 2 {
        var add := LOCAL_WINDOW - recvWindow;
        SetRecvWindow(LOCAL_WINDOW);
        QueueFrame(WindowFrame(0, add));
      }
    }

    method ReplenishStream(id: nat)
      requires Valid() && id in streams
      modifies this, openIds, ring
      ensures Valid() && Abs() == Http2Spec.ReplenishStream(old(Abs()), id)
    {
      hide Connection.Valid, Connection.Abs, WindowFrame, Emit;
      Fields();
      var s := streams[id];
      if s.recvWindow <= LOCAL_WINDOW / 2 {
        PutStream(id, s.(recvWindow := LOCAL_WINDOW));
        QueueFrame(WindowFrame(id, LOCAL_WINDOW - s.recvWindow));
      }
    }

    /** Where the data of a DATA frame starts and how much padding follows it. */
    static method Padding(f: Frame) returns (ok: bool, off: nat, pad: nat)
      ensures ok <==> DataBytes(f).Some?
      ensures ok ==> off + pad <= |f.payload| && DataBytes(f) == Some(f.payload[off..|f.payload| - pad])
    {
      off, pad, ok := 0, 0, true;
      if Bit3(f.flags) {
        if |f.payload| < 1 || f.payload[0] >= |f.payload| {
          return false, 0, 0;
        }
        off, pad := 1, f.payload[0];
      }
      assert f.payload[0..|f.payload|] == f.payload;
    }

    method HandleData(f: Frame)
      requires Valid()
      modifies this, openIds, ring
      ensures Valid() && Abs() == Http2Spec.HandleData(old(Abs()), f)
    {
      hide Connection.Valid, Connection.Abs, ConnError, Http2Spec.StreamError, Http2Spec.ReplenishConn, Http2Spec.TakeData, DataBytes;
      Fields();
      var n := |f.payload|;
      if f.id == 0 {
        ConnectionError(PROTOCOL_ERROR);
        return;
      }
      if n > recvWindow {
        ConnectionError(FLOW_CONTROL_ERROR);
        return;
      }
      SetRecvWindow(recvWindow - n);
      ReplenishConn();
      Fields();
      if Bit3(f.flags) && n < 1 {
        ConnectionError(FRAME_SIZE_ERROR);
        return;
      }
      var ok, off, pad := Padding(f);
      if !ok {
        ConnectionError(PROTOCOL_ERROR);
        return;
      }
      if f.id % 2 == 0 || f.id > lastId {
        ConnectionError(PROTOCOL_ERROR);
      } else if f.id !in streams || !CanReceive(streams[f.id].state) {
        StreamError(f.id, STREAM_CLOSED);
      } else if n > streams[f.id].recvWindow {
        StreamError(f.id, FLOW_CONTROL_ERROR);
      } else {
        TakeData(f, f.payload[off..n - pad]);
      }
    }

    method TakeData(f: Frame, data: seq<byte>)
      requires Valid() && f.id in streams
      modifies this, openIds, ring
      ensures Valid() && Abs() == Http2Spec.TakeData(old(Abs()), f, data)
    {
      hide Connection.Valid, Connection.Abs, Http2Spec.StreamError, Http2Spec.CompleteRequest, Http2Spec.CompleteResponse,
           Http2Spec.ReplenishStream, Notify;
      Fields();
      var s := streams[f.id];
      var received := s.received + |data|;
      if !server && received > maxBody {
        StreamError(f.id, ENHANCE_YOUR_CALM);
        return;
      }
      if s.hasLength && received > s.length {
        StreamError(f.id, PROTOCOL_ERROR);
        return;
      }
      if received > maxBody {
        StreamError(f.id, ENHANCE_YOUR_CALM);
        return;
      }
      if !server && (s.status == 0 || (data != [] && (s.isHead || s.status == 204 || s.status == 304))) {
        StreamError(f.id, PROTOCOL_ERROR);
        return;
      }
      var end := Bit0(f.flags);
      s := s.(recvWindow := s.recvWindow - |f.payload|, received := received,
              content := if server then s.content + data else s.content,
              state := AfterDataReceived(s.state, end));
      PutStream(f.id, s);
      if !server && data != [] {
        NotifyResponse(DataEvent, f.id, NO_ERROR, [], data, end);
      }
      if !end {
        assert f.id in Abs().streams by { NotifyKeepsStreams(SetStream(old(Abs()), f.id, s), f.id, data, end); }
        Fields();
        ReplenishStream(f.id);
      } else if server {
        CompleteRequest(f.id, s);
      } else {
        CompleteResponse(f.id, s);
      }
    }

    // ---- dispatch ----

    method Arrives(f: Frame)
      requires Valid()
      modifies this`log
      ensures Valid() && Abs() == Log(old(Abs()), In(f))
    {
      hide RingHolds;
      log := Then(log, In(f));
    }

    method SeeFirst()
      requires Valid()
      modifies this`firstSeen
      ensures Valid() && Abs() == old(Abs()).(firstSeen := true)
    {
      hide Connection.Valid;
      firstSeen := true;
    }

    method HandleFrame(f: Frame)
      requires Valid()
      modifies this, openIds, ring
      ensures Valid() && Abs() == Http2Spec.HandleFrame(old(Abs()), f)
      ensures old(Reached(Abs()) && Enabled(Abs(), Arrive(f))) ==> Reached(Abs())
    {
      hide Connection.Valid, Connection.Abs, ConnError, Http2Spec.Dispatch, Reached, Enabled;
      StaysReached(Abs(), Arrive(f));
      Arrives(f);
      Fields();
      if !server && |output| - offset > MAX_BACKLOG {
        ConnectionError(ENHANCE_YOUR_CALM);
        return;
      }
      var first := !firstSeen;
      SeeFirst();
      if first && (f.kind != SETTINGS || Bit0(f.flags)) {
        ConnectionError(PROTOCOL_ERROR);
        return;
      }
      Dispatch(f);
    }

    method Dispatch(f: Frame)
      requires Valid()
      modifies this, openIds, ring
      ensures Valid() && Abs() == Http2Spec.Dispatch(old(Abs()), f)
    {
      hide Connection.Valid, Connection.Abs, ConnError, Http2Spec.HandleData, Http2Spec.HandleHeaders, Http2Spec.HandlePriority,
           Http2Spec.HandleRst, Http2Spec.HandleSettings, Http2Spec.HandlePing, Http2Spec.HandleGoaway,
           Http2Spec.HandleWindowUpdate, Http2Spec.HandleContinuation;
      Fields();
      if assembly.id != 0 && f.kind != CONTINUATION {
        ConnectionError(PROTOCOL_ERROR);
      } else if f.kind == DATA {
        HandleData(f);
      } else if f.kind == HEADERS {
        HandleHeaders(f);
      } else if f.kind == PRIORITY {
        HandlePriority(f);
      } else if f.kind == RST_STREAM {
        HandleRst(f);
      } else if f.kind == SETTINGS {
        HandleSettings(f);
      } else if f.kind == PUSH_PROMISE {
        ConnectionError(PROTOCOL_ERROR);
      } else if f.kind == PING {
        HandlePing(f);
      } else if f.kind == GOAWAY {
        HandleGoaway(f);
      } else if f.kind == WINDOW_UPDATE {
        HandleWindowUpdate(f);
      } else if f.kind == CONTINUATION {
        HandleContinuation(f);
      }
    }

    /** What a method reads in its fields is what the abstract value holds. */
    lemma Fields()
      requires Valid()
      ensures var c := Abs();
              && c.server == server && c.huffman == huffman && c.maxBody == maxBody && c.state == state
              && c.firstSeen == firstSeen && c.peer == peer && c.sendWindow == sendWindow && c.recvWindow == recvWindow
              && c.streams == streams && |c.openIds| == openCount <= MAX_STREAMS && c.lastId == lastId
              && c.acceptedId == acceptedId && c.goawayIn == goawayIn && c.enc == enc && c.dec == dec
              && c.assembly == assembly && offset <= |output| && c.backlog == |output| - offset
              && peer.maxFrame >= LOCAL_MAX_FRAME
    {
    }

    lemma Backlog()
      requires Valid()
      ensures |output| >= offset && |output| - offset == Abs().backlog
    {
    }
  }

  ghost function LastReset(c: Conn, code: nat): Conn
    requires c.openIds != []
  {
    var id := c.openIds[|c.openIds| - 1];
    Http2Spec.CloseStream(Notify(c, ResetEvent, id, code, [], [], false), id)
  }

  lemma NotifyKeepsIds(c: Conn, id: nat, code: nat)
    ensures Notify(c, ResetEvent, id, code, [], [], false).openIds == c.openIds
  {
  }

  lemma ResetNone(c: Conn, code: nat)
    requires c.server || c.openIds == []
    ensures ResetAll(c, code) == c
  {
  }

  lemma ResetSome(c: Conn, code: nat)
    requires !c.server && c.openIds != []
    ensures ResetAll(c, code) == ResetAll(LastReset(c, code), code)
  {
  }

  lemma AdjustStep(streams: map<nat, Stream>, ids: seq<nat>, i: nat, delta: int)
    requires i < |ids|
    ensures var id := ids[i];
            Adjust(streams, ids[i..], delta)
              == if id !in streams then Adjust(streams, ids[i + 1..], delta)
                 else if streams[id].sendWindow + delta > MAX_WINDOW then Adjusted(false, streams)
                 else Adjust(streams[id := streams[id].(sendWindow := streams[id].sendWindow + delta)], ids[i + 1..], delta)
  {
    assert ids[i..][0] == ids[i] && ids[i..][1..] == ids[i + 1..];
  }

  lemma AdjustEnd(streams: map<nat, Stream>, delta: int)
    ensures Adjust(streams, [], delta) == Adjusted(true, streams)
  {
  }

  lemma SettingsStep(c: Conn, payload: seq<byte>)
    requires payload != [] && |payload| % 6 == 0
    ensures |payload| >= 6
    ensures var c1 := Http2Spec.ApplySetting(c, GetU16(payload[..2]), GetU32(payload[2..6]));
            Http2Spec.ApplySettings(c, payload) == if c1.state.Dead? then c1 else Http2Spec.ApplySettings(c1, payload[6..])
  {
    hide Http2Spec.ApplySetting;
  }

  lemma SettingsEnd(c: Conn)
    ensures Http2Spec.ApplySettings(c, []) == c
  {
  }

  lemma AboveStep(c: Conn, ids: seq<nat>, i: nat, cutoff: nat)
    requires i < |ids|
    ensures ResetAbove(c, ids[i..], cutoff)
         == if ids[i] <= cutoff then ResetAbove(c, ids[i + 1..], cutoff)
            else ResetAbove(Http2Spec.CloseStream(Notify(c, ResetEvent, ids[i], NO_ERROR, [], [], false), ids[i]), ids[i + 1..], cutoff)
  {
    hide Http2Spec.CloseStream, Notify;
    assert ids[i..][0] == ids[i] && ids[i..][1..] == ids[i + 1..];
  }

  lemma AboveEnd(c: Conn, cutoff: nat)
    ensures ResetAbove(c, [], cutoff) == c
  {
  }

  lemma NotifyKeepsStreams(c: Conn, id: nat, data: seq<byte>, end: bool)
    ensures Notify(c, DataEvent, id, NO_ERROR, [], data, end).streams == c.streams
  {
  }

  predicate TargetOk(f: Field) {
    && (f.name == Ascii(":method") ==> ValidMethod(f.value) && f.value != Ascii("CONNECT"))
    && (f.name == Ascii(":scheme") ==> ValidScheme(f.value))
  }

  lemma NoSize()
    ensures ListSize([]) == 0
  {
  }

  lemma {:induction false} BlockKeeps(c: Conn, id: nat, block: seq<byte>, first: bool, end: bool)
    ensures EmitBlock(c, id, block, first, end).streams == c.streams
    decreases |block|
  {
    if |block| > c.peer.maxFrame && c.peer.maxFrame != 0 {
      var kind := if first then HEADERS else CONTINUATION;
      BlockKeeps(Emit(c, Frame(kind, HeaderFlags(false, first && end), id, block[..c.peer.maxFrame])), id, block[c.peer.maxFrame..], false, end);
    }
  }

  lemma EmitKeeps(c: Conn, f: Frame)
    ensures Emit(c, f).sendWindow == c.sendWindow && Emit(c, f).streams == c.streams
  {
  }

  ghost function ChunkSent(c: Conn, id: nat, n: nat): Conn
    requires id in c.streams && c.streams[id].sendOff + n <= |c.streams[id].body|
  {
    var s := c.streams[id];
    var last := n == |s.body| - s.sendOff;
    var c1 := Emit(c, Frame(DATA, if last then 1 else 0, id, s.body[s.sendOff..s.sendOff + n]));
    var s1 := s.(sendOff := s.sendOff + n, sendWindow := s.sendWindow - n);
    var s2 := if last then s1.(sendPending := false, state := AfterDataSent(s.state, true)) else s1;
    var c2 := SetStream(c1.(sendWindow := c.sendWindow - n), id, s2);
    if last && s2.state.Closed? then Http2Spec.CloseStream(c2, id) else c2
  }

  lemma PumpUnfolds(c: Conn, id: nat)
    ensures Http2Spec.PumpStream(c, id)
         == if id in c.streams && c.streams[id].sendPending && c.streams[id].sendOff <= |c.streams[id].body| && !Blocked(c, c.streams[id])
            then Pumped(ChunkSent(c, id, Quantum(c, c.streams[id])), true) else Pumped(c, false)
  {
    hide Http2Spec.CloseStream;
  }

  lemma PassStep(c: Conn, ids: seq<nat>, i: nat)
    requires i < |ids|
    ensures var first := Http2Spec.PumpStream(c, ids[i]);
            var rest := Http2Spec.PumpPass(first.c, ids[i + 1..]);
            Http2Spec.PumpPass(c, ids[i..]) == Pumped(rest.c, first.progress || rest.progress)
  {
    hide Http2Spec.PumpStream;
    assert ids[i..][0] == ids[i] && ids[i..][1..] == ids[i + 1..];
  }

  lemma PassEnd(c: Conn)
    ensures Http2Spec.PumpPass(c, []) == Pumped(c, false)
  {
  }

  lemma DataStep(c: Conn, passes: nat)
    requires passes > 0
    ensures var pass := Http2Spec.PumpPass(c, c.openIds);
            Http2Spec.PumpData(c, passes) == if c.sendWindow <= 0 then c else if pass.progress then Http2Spec.PumpData(pass.c, passes - 1) else pass.c
  {
  }

  lemma DataEnd(c: Conn)
    ensures Http2Spec.PumpData(c, 0) == c
  {
  }

  lemma SplitPending(drained: seq<byte>, output: seq<byte>, offset: nat, n: nat)
    requires offset + n <= |output|
    ensures drained + output[offset..] == drained + output[offset..offset + n] + output[offset + n..]
  {
    assert output[offset..] == output[offset..offset + n] + output[offset + n..];
    Regroup(drained, output[offset..offset + n], output[offset + n..]);
  }

  lemma {:induction false} FirstAt(ids: seq<nat>, id: nat, i: nat)
    requires i < |ids| && ids[i] == id && id !in ids[..i]
    ensures id in ids && FirstIndex(ids, id) == i
  {
    if i > 0 {
      assert ids[..i][0] == ids[0];
      assert ids[1..][..i - 1] == ids[..i][1..];
      FirstAt(ids[1..], id, i - 1);
    }
  }

  lemma NothingYet(server: bool, output: seq<byte>, ring: seq<nat>)
    requires output == (if server then [] else PREFACE) && |ring| == 256
    ensures [] + output[0..] == Wire(server, Empty) && RingHolds(ring, [])
  {
    hide Ascii;
    assert output[0..] == output && [] + output == output;
  }

  lemma WireGrows(server: bool, t: Trace, drained: seq<byte>, pending: seq<byte>, f: Frame)
    requires drained + pending == Wire(server, t)
    ensures drained + (pending + EncodeFrame(f)) == Wire(server, Then(t, Out(f)))
  {
    hide EncodeFrame;
    Regroup(drained, pending, EncodeFrame(f));
    Regroup(if server then [] else PREFACE, OutBytes(t), EncodeFrame(f));
  }

  /** One frame of a header block, and the rest. */
  lemma BlockSplits(c: Conn, id: nat, block: seq<byte>, off: nat, first: bool, end: bool)
    requires off <= |block| && c.peer.maxFrame > 0
    ensures var n := Min(c.peer.maxFrame, |block| - off);
            var last := off + n == |block|;
            var c1 := Emit(c, Frame(if first then HEADERS else CONTINUATION, HeaderFlags(last, first && end), id, block[off..off + n]));
            EmitBlock(c, id, block[off..], first, end) == if last then c1 else EmitBlock(c1, id, block[off + n..], false, end)
  {
    var n := Min(c.peer.maxFrame, |block| - off);
    assert block[off..][..n] == block[off..off + n] && block[off..][n..] == block[off + n..];
    assert block[off..|block|] == block[off..];
  }
}
