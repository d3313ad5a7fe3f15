/** Three promises the connection does not keep on every run, each with a run that breaks it. */
module Http2Counterexamples {
  import opened Bytes
  import opened HpackInteger
  import opened HpackList
  import opened HpackSpec
  import opened Http2Frames
  import opened Http2Fields
  import opened Http2Spec
  import opened Http2Trace
  import opened Http2Theorems
  import opened Http2History

  /** GET https:/ as three indexed fields. */
  const GET: seq<byte> := [130, 135, 132]

  function Get(): seq<Field> {
    [Field(Ascii(":method"), Ascii("GET"), false), Field(Ascii(":scheme"), Ascii("https"), false), Field(Ascii(":path"), Ascii("/"), false)]
  }

  lemma IndexedDecodes(h: Huffman, st: DecState, index: nat, rest: seq<byte>, seen: bool)
    requires 1 <= index <= |STATIC_TABLE| && index < 100
    ensures DecodeOne(h, st, [128 + index] + rest, seen)
         == Item(1, st, Some(Field(StaticEntry(index).name, StaticEntry(index).value, false)))
  {
    hide DecodeInt, Lookup, StaticEntry, DecodeLiteral, Insert, Evict;
    IndexReads(index, rest);
    IndexFinds(st.list, index);
  }

  lemma IndexReads(index: nat, rest: seq<byte>)
    requires index < 100
    ensures DecodeInt([128 + index] + rest, 7) == Some(Parsed(index, 1))
  {
  }

  lemma IndexFinds(list: seq<HpackList.Entry>, index: nat)
    requires 1 <= index <= |STATIC_TABLE|
    ensures Lookup(list, index) == Some(StaticEntry(index))
  {
    hide StaticEntry;
  }

  lemma IndexedThenRest(h: Huffman, st: DecState, index: nat, rest: seq<byte>, seen: bool)
    requires 1 <= index <= |STATIC_TABLE| && index < 100
    ensures DecodeBlock(h, st, [128 + index] + rest, seen)
         == var b := DecodeBlock(h, st, rest, true); b.(fields := [Field(StaticEntry(index).name, StaticEntry(index).value, false)] + b.fields)
  {
    IndexedDecodes(h, st, index, rest, seen);
    hide DecodeOne, StaticEntry;
    assert ([128 + index] + rest)[1..] == rest;
  }

  lemma StaticEntries()
    ensures |STATIC_TABLE| == STATIC_SIZE
    ensures StaticEntry(2) == Entry(Ascii(":method"), Ascii("GET")) && StaticEntry(7) == Entry(Ascii(":scheme"), Ascii("https"))
    ensures StaticEntry(4) == Entry(Ascii(":path"), Ascii("/")) && StaticEntry(8) == Entry(Ascii(":status"), Ascii("200"))
  {
    hide Ascii;
    assert STATIC_TABLE[1] == (":method", "GET") && STATIC_TABLE[6] == (":scheme", "https");
    assert STATIC_TABLE[3] == (":path", "/") && STATIC_TABLE[7] == (":status", "200");
  }

  lemma GetDecodes(h: Huffman, st: DecState)
    ensures DecodeBlock(h, st, GET, false) == Block(true, Get(), st)
  {
    hide StaticEntry, Ascii;
    StaticEntries();
    assert DecodeBlock(h, st, [], true) == Block(true, [], st);
    hide DecodeBlock;
    var b1: seq<byte> := [128 + 4] + [];
    var b2 := [128 + 7] + b1;
    IndexedThenRest(h, st, 4, [], true);
    IndexedThenRest(h, st, 7, b1, true);
    IndexedThenRest(h, st, 2, b2, false);
    assert GET == [128 + 2] + b2;
  }

  lemma LettersValid(name: string)
    requires |name| >= 2 && name[0] == ':' && forall i | 1 <= i < |name| :: 'a' <= name[i] <= 'z'
    ensures ValidName(Ascii(name))
  {
  }

  lemma NamesValid()
    ensures ValidName(Ascii(":method")) && ValidName(Ascii(":scheme")) && ValidName(Ascii(":path"))
    ensures ValidValue(Ascii("GET")) && ValidValue(Ascii("https")) && ValidValue(Ascii("/"))
  {
    LettersValid(":method");
    LettersValid(":scheme");
    LettersValid(":path");
    hide ValidName;
  }

  lemma NamesDiffer()
    ensures Ascii(":method") != Ascii(":scheme") && Ascii(":scheme") != Ascii(":path") && Ascii(":method") != Ascii(":path")
    ensures Ascii("content-length") != Ascii(":method") && Ascii("content-length") != Ascii(":scheme") && Ascii("content-length") != Ascii(":path")
    ensures Ascii("GET") != Ascii("CONNECT") && Ascii("GET") != Ascii("HEAD")
  {
    assert Ascii(":method")[1] != Ascii(":scheme")[1];
    assert Ascii("GET")[0] != Ascii("HEAD")[0];
  }

  lemma GetValues(name: seq<byte>)
    ensures ValueOf(Get(), name) == if name == Ascii(":method") then Some(Ascii("GET"))
                                    else if name == Ascii(":scheme") then Some(Ascii("https"))
                                    else if name == Ascii(":path") then Some(Ascii("/")) else None
  {
    hide Ascii;
    var fs := Get();
    ValueOfPrefix(fs, 0, name);
    ValueOfPrefix(fs, 1, name);
    ValueOfPrefix(fs, 2, name);
    assert fs[..3] == fs && fs[..0] == [];
  }

  lemma GetWellFormed()
    ensures WellFormed(Get(), RequestSection) && DeclaredLength(Get()).None? && !IsHeadRequest(Get())
  {
    hide ValidName, ValidValue;
    NamesValid();
    NamesDiffer();
    GetValues(Ascii(":method"));
    GetValues(Ascii(":scheme"));
    GetValues(Ascii(":path"));
    GetValues(Ascii("content-length"));
    GetSize();
    hide ValueOf, ListSize;
    assert PrefixOk(Get(), 3, RequestSection);
  }

  lemma GetSize()
    ensures ListSize(Get()) <= 1000
  {
    var fs := Get();
    assert fs[..2] == [fs[0], fs[1]] && [fs[0], fs[1]][..1] == [fs[0]];
    assert ListSize([fs[0]]) == 42;
    assert ListSize([fs[0], fs[1]]) == 86;
  }

  // ---- the frames of the runs ----

  function GetFrame(end: bool): Frame { Frame(HEADERS, if end then 5 else 4, 1, GET) }

  const SETTINGS_FRAME: Frame := Frame(SETTINGS, 0, 0, [])
  const PRIORITY_FRAME: Frame := Frame(PRIORITY, 0, 1, [])
  const END_FRAME: Frame := Frame(DATA, 1, 1, [])

  /** A server that waits for its first request. */
  ghost predicate Ready(c: Conn) {
    && c.server && c.state.Active? && c.firstSeen && c.assembly.id == 0
    && c.lastId == 0 && c.streams == map[] && c.openIds == [] && c.backlog < 1000
    && c.recvWindow == LOCAL_WINDOW && c.peer.maxFrame == LOCAL_MAX_FRAME && !c.enc.pending
  }

  lemma AfterMore(c: Conn, step: Step, rest: seq<Step>)
    ensures After(c, [step] + rest) == After(Take(c, step), rest)
    ensures Legal(c, [step] + rest) <==> Enabled(c, step) && Legal(Take(c, step), rest)
  {
    hide Take, Enabled;
    assert ([step] + rest)[1..] == rest;
  }

  lemma SettingsReady(c: Conn)
    requires Ready(c.(firstSeen := true)) && c.backlog < 900
    ensures Ready(Take(c, Arrive(SETTINGS_FRAME)))
    ensures var c' := Take(c, Arrive(SETTINGS_FRAME));
            && c'.log == Then(Then(c.log, In(SETTINGS_FRAME)), Out(Frame(SETTINGS, 1, 0, [])))
            && c'.idleResets == c.idleResets && c'.earlyAnswers == c.earlyAnswers && c'.earlyGoaway == c.earlyGoaway
            && c'.backlog == c.backlog + HEADER_BYTES
  {
    var c1 := Log(c, In(SETTINGS_FRAME)).(firstSeen := true);
    assert ApplySettings(c1, []) == c1;
    var c2 := Emit(c1, Frame(SETTINGS, 1, 0, []));
    assert PumpPass(c2, c2.openIds) == Pumped(c2, false);
    assert Pump(c2) == c2;
  }

  lemma RequestOpens(c: Conn, end: bool)
    requires Ready(c)
    ensures var c' := Take(c, Arrive(GetFrame(end)));
            && c'.server && c'.state.Active? && c'.firstSeen && c'.assembly.id == 0 && c'.lastId == 1
            && c'.openIds == [1] && 1 in c'.streams && c'.backlog == c.backlog
            && c'.streams[1].state == (if end then HalfClosedRemote else Open) && !c'.streams[1].sendPending
            && c'.streams[1].complete == end && !c'.streams[1].hasLength && c'.streams[1].received == 0
            && !c'.streams[1].isHead && c'.streams[1].recvWindow == LOCAL_WINDOW
            && c'.log == (var t := Then(Then(c.log, In(GetFrame(end))), Opened(1, Get())); if end then Then(t, Request(1, [])) else t)
            && c'.idleResets == c.idleResets && c'.earlyAnswers == c.earlyAnswers
            && c'.recvWindow == LOCAL_WINDOW && c'.peer.maxFrame == LOCAL_MAX_FRAME && c'.enc == c.enc && c'.huffman == c.huffman
  {
    GetWellFormed();
    GetDecodes(c.huffman, c.dec);
    hide WellFormed, DeclaredLength, IsHeadRequest, DecodeBlock, Get;
    GetIsShort();
    var f := GetFrame(end);
    var c1 := Log(c, In(f)).(firstSeen := true);
    assert FragmentOf(f) == Fragment(GET, false);
    assert Bit2(f.flags) && Bit0(f.flags) == end;
    assert Take(c, Arrive(f)) == FinishBlock(c1, Assembly(1, end, false, GET));
    assert FinishBlock(c1, Assembly(1, end, false, GET)) == OpenStream(c1.(lastId := 1), 1, end, Get());
  }

  lemma GetIsShort()
    ensures |Get()| == 3
  {
  }

  /** 200 is one indexed field. */
  lemma OkBlock(h: Huffman, es: EncState)
    requires !es.pending
    ensures |EncodeBlock(h, es, [Field(Ascii(":status"), Ascii("200"), false)])| == 1
  {
    hide FindFrom, StaticEntry, Ascii;
    StaticEntries();
    var f := Field(Ascii(":status"), Ascii("200"), false);
    assert FindFrom(f.name, f.value, 1) != 0;
    assert |EncodeField(h, f)| == 1;
    hide EncodeField;
    assert [f][1..] == [];
    assert EncodeFields(h, [f]) == EncodeField(h, f) + EncodeFields(h, []);
  }

  lemma OkFields()
    ensures AnswerFields(200, []) == [Field(Ascii(":status"), Ascii("200"), false)]
  {
    assert StatusText(200) == Ascii("200");
    hide Ascii, StatusText;
    assert ResponseFields([]) == [];
  }

  /** A stream answered with 200 and no body: its HEADERS frame ends it. */
  lemma EmptyAnswer(c: Conn)
    requires c.server && c.state.Active? && 1 in c.streams && CanSend(c.streams[1].state) && !c.streams[1].sendPending
    requires !c.enc.pending && c.peer.maxFrame == LOCAL_MAX_FRAME
    ensures var c' := Take(c, Respond(1, 200, [], []));
            && c'.log.Then? && c'.log.last.Out? && c'.log.last.frame.kind == HEADERS && c'.log.last.frame.id == 1
            && c'.log.before.Then? && c'.log.before.before == c.log && c'.log.before.last.Begin?
            && (c.streams[1].state.Open? ==> c' == c.(enc := c'.enc, log := c'.log, backlog := c'.backlog, earlyAnswers := c'.earlyAnswers,
                                                      streams := c.streams[1 := c.streams[1].(state := HalfClosedLocal)]))
  {
    hide EncodeBlock, AnswerFields, Ascii;
    OkBlock(c.huffman, c.enc);
    OkFields();
    var fields := [Field(Ascii(":status"), Ascii("200"), false)];
    var block := EncodeBlock(c.huffman, c.enc, fields);
    var c1 := c.(enc := c.enc.(pending := false));
    assert Take(c, Respond(1, 200, [], [])) == Answer(c1, 1, fields, block, []);
  }

  // ---- the runs ----

  lemma StartReady(h: Huffman, maxBody: nat)
    ensures var c := Take(Init(true, h, maxBody), Prefaced);
            c.state.Active? && Ready(c.(firstSeen := true)) && c.backlog < 100 && c.idleResets == {} && c.earlyAnswers == {}
    ensures Enabled(Init(true, h, maxBody), Prefaced)
  {
  }

  /** A malformed PRIORITY frame resets an unused stream; the request that follows on it is answered all the same. */
  lemma UsedAfterReset(h: Huffman, maxBody: nat)
    ensures exists steps: seq<Step> ::
              Legal(Init(true, h, maxBody), steps) && Late(After(Init(true, h, maxBody), steps).log, 1)
  {
    hide Take, Init, Late, ResetSent, CanSend;
    var c0 := Init(true, h, maxBody);
    var c1 := Take(c0, Prefaced);
    StartReady(h, maxBody);
    var c2 := Take(c1, Arrive(SETTINGS_FRAME));
    SettingsReady(c1);
    var c3 := Take(c2, Arrive(PRIORITY_FRAME));
    PriorityResets(c2);
    var c4 := Take(c3, Arrive(GetFrame(true)));
    RequestOpens(c3, true);
    var c5 := Take(c4, Respond(1, 200, [], []));
    assert CanSend(c4.streams[1].state) by { MaySend(c4.streams[1].state); }
    EmptyAnswer(c4);
    ExtendsByThree(c4.log);
    LateAnswer(c3.log, c5.log);
    Run5(c0, Prefaced, Arrive(SETTINGS_FRAME), Arrive(PRIORITY_FRAME), Arrive(GetFrame(true)), Respond(1, 200, [], []));
  }

  lemma ExtendsByThree(t: Trace)
    requires t.Then? && t.before.Then? && t.before.before.Then?
    ensures Extends(t.before.before.before, t)
  {
    var u := t.before.before.before;
    assert Extends(u, u);
    assert Extends(u, t.before.before);
    assert Extends(u, t.before);
  }

  lemma MaySend(s: StreamState)
    requires s.HalfClosedRemote? || s.Open?
    ensures CanSend(s)
  {
  }

  lemma PriorityResets(c: Conn)
    requires Ready(c) && c.backlog < 900
    ensures var c' := Take(c, Arrive(PRIORITY_FRAME)); Ready(c') && ResetSent(c'.log, 1)
  {
  }

  lemma LateAnswer(t: Trace, t': Trace)
    requires ResetSent(t, 1)
    requires t'.Then? && t'.last.Out? && t'.last.frame.kind == HEADERS && t'.last.frame.id == 1
    requires t'.before.Then? && Extends(t, t'.before.before)
    ensures Late(t', 1)
  {
    ResetStays(t, t'.before.before);
    assert ResetSent(t'.before, 1);
  }

  lemma {:induction false} ResetStays(t: Trace, t': Trace)
    requires ResetSent(t, 1) && Extends(t, t')
    ensures ResetSent(t', 1)
    decreases t'
  {
    if t != t' {
      ResetStays(t, t'.before);
    }
  }

  lemma Run4(c: Conn, a: Step, b: Step, d: Step, e: Step)
    ensures After(c, [a, b, d, e]) == Take(Take(Take(Take(c, a), b), d), e)
    ensures Legal(c, [a, b, d, e]) <==>
              Enabled(c, a) && Enabled(Take(c, a), b) && Enabled(Take(Take(c, a), b), d) && Enabled(Take(Take(Take(c, a), b), d), e)
  {
    hide Take, Enabled;
    AfterMore(c, a, [b, d, e]);
    AfterMore(Take(c, a), b, [d, e]);
    AfterMore(Take(Take(c, a), b), d, [e]);
    AfterMore(Take(Take(Take(c, a), b), d), e, []);
    assert [a] + [b, d, e] == [a, b, d, e] && [b] + [d, e] == [b, d, e] && [d] + [e] == [d, e] && [e] + [] == [e];
  }

  lemma Run5(c: Conn, a: Step, b: Step, d: Step, e: Step, f: Step)
    ensures After(c, [a, b, d, e, f]) == Take(Take(Take(Take(Take(c, a), b), d), e), f)
    ensures Legal(c, [a, b, d, e, f]) <==>
              && Enabled(c, a) && Enabled(Take(c, a), b) && Enabled(Take(Take(c, a), b), d)
              && Enabled(Take(Take(Take(c, a), b), d), e) && Enabled(Take(Take(Take(Take(c, a), b), d), e), f)
  {
    hide Take, Enabled;
    AfterMore(c, a, [b, d, e, f]);
    Run4(Take(c, a), b, d, e, f);
    assert [a] + [b, d, e, f] == [a, b, d, e, f];
  }

  /** A GOAWAY sent before the preface is complete names stream 0, and streams are accepted after it. */
  lemma AcceptedAboveCutoff(h: Huffman, maxBody: nat)
    ensures exists steps: seq<Step> ::
              Legal(Init(true, h, maxBody), steps) && !CutoffsExact(true, After(Init(true, h, maxBody), steps).log)
  {
    hide Take, Init, CutoffsExact, Announced;
    var c0 := Init(true, h, maxBody);
    var c1 := Take(c0, Goaway(NO_ERROR, []));
    var c2 := Take(c1, Prefaced);
    EarlyGoawayReady(h, maxBody);
    var c3 := Take(c2, Arrive(SETTINGS_FRAME));
    SettingsReady(c2);
    var c4 := Take(c3, Arrive(GetFrame(true)));
    RequestOpens(c3, true);
    NotExact(c2.log, c4.log);
    Run4(c0, Goaway(NO_ERROR, []), Prefaced, Arrive(SETTINGS_FRAME), Arrive(GetFrame(true)));
  }

  lemma EarlyGoawayReady(h: Huffman, maxBody: nat)
    ensures var c := Take(Init(true, h, maxBody), Goaway(NO_ERROR, []));
            Enabled(Init(true, h, maxBody), Goaway(NO_ERROR, [])) && Enabled(c, Prefaced)
            && Ready(Take(c, Prefaced).(firstSeen := true)) && Take(c, Prefaced).backlog < 100 && Announced(Take(c, Prefaced).log)
  {
  }

  lemma NotExact(t: Trace, t': Trace)
    requires Announced(t)
    requires t'.Then? && t'.before.Then? && t'.before.last.Opened? && t'.before.before.Then? && t'.before.before.before.Then?
    requires t'.before.before.before.before.Then? && t'.before.before.before.before.before == t
    ensures !CutoffsExact(true, t')
  {
    var u := t'.before.before.before;
    assert Announced(u.before) && Announced(u) && Announced(t'.before.before);
    assert !CutoffsExact(true, t'.before);
  }

  /** Answered before its request has ended, a stream closes without leaving the table. */
  lemma ClosedStreamStays(h: Huffman, maxBody: nat)
    ensures exists steps: seq<Step> ::
              && Legal(Init(true, h, maxBody), steps)
              && var c := After(Init(true, h, maxBody), steps); 1 in c.streams && c.streams[1].state.Closed?
  {
    hide Take, Init;
    var c0 := Init(true, h, maxBody);
    var c1 := Take(c0, Prefaced);
    StartReady(h, maxBody);
    var c2 := Take(c1, Arrive(SETTINGS_FRAME));
    SettingsReady(c1);
    var c3 := Take(c2, Arrive(GetFrame(false)));
    RequestOpens(c2, false);
    var c4 := Take(c3, Respond(1, 200, [], []));
    EmptyAnswer(c3);
    var c5 := Take(c4, Arrive(END_FRAME));
    EndCloses(c4);
    Run5(c0, Prefaced, Arrive(SETTINGS_FRAME), Arrive(GetFrame(false)), Respond(1, 200, [], []), Arrive(END_FRAME));
  }

  lemma EndCloses(c: Conn)
    requires c.server && c.state.Active? && c.firstSeen && c.assembly.id == 0 && c.lastId == 1
    requires 1 in c.streams && c.streams[1].state == HalfClosedLocal && !c.streams[1].hasLength && c.streams[1].received == 0
    requires c.recvWindow == LOCAL_WINDOW && c.streams[1].recvWindow == LOCAL_WINDOW
    ensures var c' := Take(c, Arrive(END_FRAME)); 1 in c'.streams && c'.streams[1].state.Closed?
  {
    hide ConnError, StreamError, HandleHeaders, HandleSettings, HandleGoaway, HandleWindowUpdate, HandleContinuation, HandleRst,
         HandlePriority, HandlePing, CompleteResponse;
  }
}
