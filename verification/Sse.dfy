/** Server-sent events: the formatter, and the event-stream parser of section 9.2.6 of the HTML standard as its inverse. */
module Sse {
  import opened Bytes
  import Decimals

  const CR: byte := 13
  const LF: byte := 10
  const NUL: byte := 0
  const COLON: byte := 58
  const SPACE: byte := 32
  const MAX_FIELD: nat := 0x10_0000

  // ---- what is formatted ----

  datatype Item =
    | Message(event: seq<byte>, data: seq<byte>, id: seq<byte>)
    | Comment(text: seq<byte>)
    | Retry(ms: int)

  predicate Plain(v: seq<byte>) { forall i | 0 <= i < |v| :: v[i] != CR && v[i] != LF }

  predicate Clean(v: seq<byte>) { |v| <= MAX_FIELD && Plain(v) && NUL !in v }

  predicate Accepted(item: Item) {
    match item
    case Message(event, _, id) => Clean(event) && Clean(id)
    case Comment(_) => true
    case Retry(ms) => ms >= 0
  }

  /** The first line break at i or later, or the end. */
  function Break(s: seq<byte>, i: nat): (j: nat)
    requires i <= |s|
    ensures i <= j <= |s| && (forall k | i <= k < j :: s[k] != CR && s[k] != LF) && (j < |s| ==> s[j] == CR || s[j] == LF)
    decreases |s| - i
  {
    if i == |s| || s[i] == CR || s[i] == LF then i else Break(s, i + 1)
  }

  /** CRLF counts as one. */
  function PastBreak(s: seq<byte>, j: nat): (k: nat)
    requires j < |s|
    ensures j < k <= |s|
  {
    if s[j] == CR && j + 1 < |s| && s[j + 1] == LF then j + 2 else j + 1
  }

  /** The lines of a text from i on: at least one, the last without terminator. */
  function LinesFrom(s: seq<byte>, i: nat): (ls: seq<seq<byte>>)
    requires i <= |s|
    ensures |ls| >= 1 && forall k | 0 <= k < |ls| :: Plain(ls[k])
    decreases |s| - i
  {
    var j := Break(s, i);
    if j == |s| then [s[i..]] else [s[i..j]] + LinesFrom(s, PastBreak(s, j))
  }

  function Lines(s: seq<byte>): (ls: seq<seq<byte>>)
    ensures |ls| >= 1 && forall k | 0 <= k < |ls| :: Plain(ls[k])
  {
    LinesFrom(s, 0)
  }

  /** Each line behind a prefix. */
  function Prefixed(prefix: seq<byte>, ls: seq<seq<byte>>): seq<byte> {
    if ls == [] then [] else prefix + ls[0] + [LF] + Prefixed(prefix, ls[1..])
  }

  function FieldLine(name: seq<byte>, value: seq<byte>): seq<byte> { name + [COLON, SPACE] + value + [LF] }

  function Format(item: Item): seq<byte>
    requires Accepted(item)
  {
    match item
    case Message(event, data, id) =>
      (if id == [] then [] else FieldLine(Ascii("id"), id))
      + (if event == [] then [] else FieldLine(Ascii("event"), event))
      + Prefixed(Ascii("data") + [COLON, SPACE], Lines(data)) + [LF]
    case Comment(text) => Prefixed([COLON, SPACE], Lines(text)) + [LF]
    case Retry(ms) => FieldLine(Ascii("retry"), Decimals.Text(ms)) + [LF]
  }

  function FormatAll(items: seq<Item>): seq<byte>
    requires forall i | 0 <= i < |items| :: Accepted(items[i])
  {
    if items == [] then [] else Format(items[0]) + FormatAll(items[1..])
  }

  // ---- the client ----

  datatype Event = Event(kind: seq<byte>, data: seq<byte>, id: seq<byte>)

  /** data and kind are the buffers of the event being read. */
  datatype Client = Client(data: seq<byte>, kind: seq<byte>, lastId: seq<byte>, retry: Option<nat>, events: seq<Event>)

  function FirstColon(line: seq<byte>, i: nat): (j: nat)
    requires i <= |line|
    ensures i <= j <= |line| && (forall k | i <= k < j :: line[k] != COLON) && (j < |line| ==> line[j] == COLON)
    decreases |line| - i
  {
    if i == |line| || line[i] == COLON then i else FirstColon(line, i + 1)
  }

  function Dispatch(c: Client): Client {
    if c.data == [] then c.(kind := [])
    else
      var n := |c.data| - 1;
      var data := if c.data[n] == LF then c.data[..n] else c.data;
      c.(data := [], kind := [], events := c.events + [Event(if c.kind == [] then Ascii("message") else c.kind, data, c.lastId)])
  }

  function Apply(c: Client, name: seq<byte>, value: seq<byte>): Client {
    if name == Ascii("event") then c.(kind := value)
    else if name == Ascii("data") then c.(data := c.data + value + [LF])
    else if name == Ascii("id") then (if NUL in value then c else c.(lastId := value))
    else if name == Ascii("retry") then
      (if value != [] && Decimals.Digits(value) then c.(retry := Some(Decimals.Number(value))) else c)
    else c
  }

  function OnLine(c: Client, line: seq<byte>): Client {
    if line == [] then Dispatch(c)
    else if line[0] == COLON then c
    else
      var j := FirstColon(line, 0);
      if j == |line| then Apply(c, line, [])
      else
        var value := line[j + 1..];
        Apply(c, line[..j], if value != [] && value[0] == SPACE then value[1..] else value)
  }

  /** Line by line; an unterminated last line is ignored. */
  function Feed(c: Client, s: seq<byte>): Client
    decreases |s|
  {
    var j := Break(s, 0);
    if j == |s| then c else Feed(OnLine(c, s[..j]), s[PastBreak(s, j)..])
  }

  // ---- what the client is meant to see ----

  /** Line breaks of any kind become LF. */
  function Normalised(d: seq<byte>, i: nat): seq<byte>
    requires i <= |d|
    decreases |d| - i
  {
    if i == |d| then []
    else if d[i] == CR then [LF] + Normalised(d, PastBreak(d, i))
    else [d[i]] + Normalised(d, i + 1)
  }

  function Seen(c: Client, item: Item): Client {
    match item
    case Message(event, data, id) =>
      var last := if id == [] then c.lastId else id;
      c.(lastId := last, events := c.events + [Event(if event == [] then Ascii("message") else event, Normalised(data, 0), last)])
    case Comment(_) => c
    case Retry(ms) => if ms >= 0 then c.(retry := Some(ms)) else c
  }

  function SeenAll(c: Client, items: seq<Item>): Client
    decreases |items|
  {
    if items == [] then c else SeenAll(Seen(c, items[0]), items[1..])
  }

  // ---- one line ----

  lemma FeedLine(c: Client, line: seq<byte>, rest: seq<byte>)
    requires Plain(line)
    ensures Feed(c, line + [LF] + rest) == Feed(OnLine(c, line), rest)
  {
    var s := line + [LF] + rest;
    var j := Break(s, 0);
    assert forall k | 0 <= k < |line| :: s[k] == line[k];
    assert s[|line|] == LF;
    assert j == |line|;
    assert s[..j] == line && s[j + 1..] == rest;
  }

  /** "name: value" is a field, whatever the value. */
  lemma OnField(c: Client, name: seq<byte>, value: seq<byte>)
    requires name != [] && COLON !in name
    ensures OnLine(c, name + [COLON, SPACE] + value) == Apply(c, name, value)
  {
    var line := name + [COLON, SPACE] + value;
    var j := FirstColon(line, 0);
    assert forall k | 0 <= k < |name| :: line[k] == name[k];
    assert line[|name|] == COLON;
    assert j == |name|;
    assert line[..j] == name && line[j + 1..] == [SPACE] + value && ([SPACE] + value)[1..] == value;
  }

  lemma FeedField(c: Client, name: seq<byte>, value: seq<byte>, rest: seq<byte>)
    requires name != [] && COLON !in name && Plain(name) && Plain(value)
    ensures Feed(c, FieldLine(name, value) + rest) == Feed(Apply(c, name, value), rest)
  {
    hide Feed, OnLine, Apply;
    var line := name + [COLON, SPACE] + value;
    assert FieldLine(name, value) + rest == line + [LF] + rest;
    FeedLine(c, line, rest);
    OnField(c, name, value);
  }

  // ---- data ----

  function Terminated(ls: seq<seq<byte>>): seq<byte> {
    if ls == [] then [] else ls[0] + [LF] + Terminated(ls[1..])
  }

  lemma DataName()
    ensures Ascii("data") != [] && COLON !in Ascii("data") && Plain(Ascii("data"))
    ensures forall c: Client, v: seq<byte> :: Apply(c, Ascii("data"), v) == c.(data := c.data + v + [LF])
  {
    assert Ascii("data")[0] != Ascii("event")[0];
  }

  lemma {:induction false} FeedData(c: Client, ls: seq<seq<byte>>, rest: seq<byte>)
    requires forall k | 0 <= k < |ls| :: Plain(ls[k])
    ensures Feed(c, Prefixed(Ascii("data") + [COLON, SPACE], ls) + rest) == Feed(c.(data := c.data + Terminated(ls)), rest)
    decreases |ls|
  {
    hide Feed, Apply, Ascii;
    DataName();
    var prefix := Ascii("data") + [COLON, SPACE];
    if ls == [] {
      assert Prefixed(prefix, ls) + rest == rest && c.data + Terminated(ls) == c.data;
    } else {
      var tail := Prefixed(prefix, ls[1..]) + rest;
      assert Prefixed(prefix, ls) + rest == FieldLine(Ascii("data"), ls[0]) + tail;
      FeedField(c, Ascii("data"), ls[0], tail);
      var c1 := c.(data := c.data + ls[0] + [LF]);
      FeedData(c1, ls[1..], rest);
      assert c1.data + Terminated(ls[1..]) == c.data + Terminated(ls);
    }
  }

  /** Lines rejoined with LF are the text with its line breaks normalised. */
  lemma {:induction false} RejoinedIsNormalised(s: seq<byte>, i: nat)
    requires i <= |s|
    ensures Terminated(LinesFrom(s, i)) == Normalised(s, i) + [LF]
    decreases |s| - i
  {
    var j := Break(s, i);
    if j == |s| {
      PlainNormalised(s, i, j);
      assert LinesFrom(s, i)[1..] == [];
      assert Normalised(s, j) == [];
      assert s[i..j] + [] == s[i..];
    } else {
      var k := PastBreak(s, j);
      RejoinedIsNormalised(s, k);
      PlainNormalised(s, i, j);
      assert LinesFrom(s, i)[1..] == LinesFrom(s, k);
      assert Normalised(s, j) == [LF] + Normalised(s, k);
      assert s[i..j] + [LF] + (Normalised(s, k) + [LF]) == s[i..j] + ([LF] + Normalised(s, k)) + [LF];
    }
  }

  lemma {:induction false} PlainNormalised(s: seq<byte>, i: nat, j: nat)
    requires i <= j <= |s| && forall k | i <= k < j :: s[k] != CR && s[k] != LF
    ensures Normalised(s, i) == s[i..j] + Normalised(s, j)
    decreases j - i
  {
    if i < j {
      PlainNormalised(s, i + 1, j);
      assert Normalised(s, i) == [s[i]] + Normalised(s, i + 1);
      hide Normalised;
      assert s[i..j] == [s[i]] + s[i + 1..j];
      Regroup([s[i]], s[i + 1..j], Normalised(s, j));
    } else {
      assert s[i..j] == [];
    }
  }

  // ---- items ----

  lemma FeedBlank(c: Client, rest: seq<byte>)
    ensures Feed(c, [LF] + rest) == Feed(Dispatch(c), rest)
  {
    FeedLine(c, [], rest);
    assert [] + [LF] + rest == [LF] + rest;
  }

  lemma {:induction false} FeedComment(c: Client, ls: seq<seq<byte>>, rest: seq<byte>)
    requires forall k | 0 <= k < |ls| :: Plain(ls[k])
    ensures Feed(c, Prefixed([COLON, SPACE], ls) + rest) == Feed(c, rest)
    decreases |ls|
  {
    hide Feed;
    if ls == [] {
      assert Prefixed([COLON, SPACE], ls) + rest == rest;
    } else {
      var tail := Prefixed([COLON, SPACE], ls[1..]) + rest;
      var line := [COLON, SPACE] + ls[0];
      assert Prefixed([COLON, SPACE], ls) + rest == line + [LF] + tail;
      FeedLine(c, line, tail);
      FeedComment(c, ls[1..], rest);
    }
  }

  /** Nothing of an event has been read yet. */
  predicate Between(c: Client) { c.data == [] && c.kind == [] }

  lemma IdName()
    ensures Ascii("id") != [] && COLON !in Ascii("id") && Plain(Ascii("id"))
    ensures forall c: Client, v: seq<byte> | NUL !in v :: Apply(c, Ascii("id"), v) == c.(lastId := v)
  {
  }

  lemma EventName()
    ensures Ascii("event") != [] && COLON !in Ascii("event") && Plain(Ascii("event"))
    ensures forall c: Client, v: seq<byte> :: Apply(c, Ascii("event"), v) == c.(kind := v)
  {
  }

  lemma RetryName()
    ensures Ascii("retry") != [] && COLON !in Ascii("retry") && Plain(Ascii("retry"))
    ensures forall c: Client, v: seq<byte> | v != [] && Decimals.Digits(v) :: Apply(c, Ascii("retry"), v) == c.(retry := Some(Decimals.Number(v)))
  {
    assert Ascii("retry")[0] != Ascii("event")[0];
  }

  lemma FeedId(c: Client, id: seq<byte>, rest: seq<byte>)
    requires Clean(id)
    ensures Feed(c, (if id == [] then [] else FieldLine(Ascii("id"), id)) + rest) == Feed(if id == [] then c else c.(lastId := id), rest)
  {
    hide Feed, Apply, Ascii;
    IdName();
    if id == [] {
      assert [] + rest == rest;
    } else {
      FeedField(c, Ascii("id"), id, rest);
    }
  }

  lemma FeedKind(c: Client, event: seq<byte>, rest: seq<byte>)
    requires Clean(event) && c.kind == []
    ensures Feed(c, (if event == [] then [] else FieldLine(Ascii("event"), event)) + rest) == Feed(c.(kind := event), rest)
  {
    hide Feed, Apply, Ascii;
    EventName();
    if event == [] {
      assert [] + rest == rest;
    } else {
      FeedField(c, Ascii("event"), event, rest);
    }
  }

  lemma FeedMessage(c: Client, event: seq<byte>, data: seq<byte>, id: seq<byte>, rest: seq<byte>)
    requires Between(c) && Clean(event) && Clean(id)
    ensures Feed(c, Format(Message(event, data, id)) + rest) == Feed(Seen(c, Message(event, data, id)), rest)
  {
    hide Feed, Ascii, Lines, Normalised, Prefixed, Terminated, FieldLine, Clean, LinesFrom;
    var a := if id == [] then [] else FieldLine(Ascii("id"), id);
    var b := if event == [] then [] else FieldLine(Ascii("event"), event);
    var d := Prefixed(Ascii("data") + [COLON, SPACE], Lines(data));
    Regroup4(a, b, d, [LF], rest);
    FeedId(c, id, b + (d + ([LF] + rest)));
    var c1 := if id == [] then c else c.(lastId := id);
    FeedKind(c1, event, d + ([LF] + rest));
    var c2 := c1.(kind := event);
    FeedData(c2, Lines(data), [LF] + rest);
    RejoinedLines(data);
    var c3 := c2.(data := c2.data + Terminated(Lines(data)));
    assert [] + Terminated(Lines(data)) == Normalised(data, 0) + [LF];
    assert c3.data[..|c3.data| - 1] == Normalised(data, 0);
    FeedBlank(c3, rest);
  }

  lemma RejoinedLines(s: seq<byte>)
    ensures Terminated(Lines(s)) == Normalised(s, 0) + [LF]
  {
    RejoinedIsNormalised(s, 0);
  }

  lemma Regroup4(a: seq<byte>, b: seq<byte>, c: seq<byte>, d: seq<byte>, e: seq<byte>)
    ensures a + b + c + d + e == a + (b + (c + (d + e)))
  {
  }

  lemma FeedItem(c: Client, item: Item, rest: seq<byte>)
    requires Between(c) && Accepted(item)
    ensures Feed(c, Format(item) + rest) == Feed(Seen(c, item), rest)
  {
    hide Feed, Ascii, Lines, Normalised, Prefixed, FieldLine, Apply, Seen, Clean;
    match item {
      case Message(event, data, id) => FeedMessage(c, event, data, id, rest);
      case Comment(text) =>
        var d := Prefixed([COLON, SPACE], Lines(text));
        Regroup(d, [LF], rest);
        FeedComment(c, Lines(text), [LF] + rest);
        FeedBlank(c, rest);
        CommentUnseen(c, text);
      case Retry(ms) =>
        var d := FieldLine(Ascii("retry"), Decimals.Text(ms));
        Regroup(d, [LF], rest);
        RetryName();
        FeedField(c, Ascii("retry"), Decimals.Text(ms), [LF] + rest);
        FeedBlank(Apply(c, Ascii("retry"), Decimals.Text(ms)), rest);
        RetrySeen(c, ms);
    }
  }

  lemma CommentUnseen(c: Client, text: seq<byte>)
    ensures Seen(c, Comment(text)) == c
  {
  }

  lemma RetrySeen(c: Client, ms: nat)
    ensures Seen(c, Retry(ms)) == c.(retry := Some(ms))
  {
  }

  lemma SeenBetween(c: Client, item: Item)
    requires Between(c)
    ensures Between(Seen(c, item))
  {
  }

  /** Whatever was accepted is what the client dispatches, in order, with the last id carried forward. */
  lemma {:induction false} StreamRoundTrip(c: Client, items: seq<Item>)
    requires Between(c) && forall i | 0 <= i < |items| :: Accepted(items[i])
    ensures Feed(c, FormatAll(items)) == SeenAll(c, items)
    decreases |items|
  {
    hide Seen, Format, Accepted, Between;
    if items != [] {
      FeedItem(c, items[0], FormatAll(items[1..]));
      SeenBetween(c, items[0]);
      StreamRoundTrip(Seen(c, items[0]), items[1..]);
    }
  }

  /** However the stream is cut after a whole item, feeding the parts in turn comes to the same. */
  lemma StreamResumes(c: Client, items: seq<Item>, more: seq<Item>)
    requires Between(c) && (forall i | 0 <= i < |items| :: Accepted(items[i])) && (forall i | 0 <= i < |more| :: Accepted(more[i]))
    ensures Feed(Feed(c, FormatAll(items)), FormatAll(more)) == SeenAll(SeenAll(c, items), more)
  {
    StreamRoundTrip(c, items);
    SeenAllBetween(c, items);
    hide Feed, SeenAll, FormatAll, Between, Accepted;
    StreamRoundTrip(SeenAll(c, items), more);
  }

  lemma {:induction false} SeenAllBetween(c: Client, items: seq<Item>)
    requires Between(c)
    ensures Between(SeenAll(c, items))
    decreases |items|
  {
    hide Seen;
    if items != [] {
      SeenBetween(c, items[0]);
      SeenAllBetween(Seen(c, items[0]), items[1..]);
    }
  }

  // ---- the formatters as they run ----

  method CleanField(v: seq<byte>) returns (ok: bool)
    ensures ok == Clean(v)
  {
    if |v| > MAX_FIELD {
      return false;
    }
    var i := 0;
    while i < |v|
      invariant 0 <= i <= |v| && forall k | 0 <= k < i :: v[k] != CR && v[k] != LF && v[k] != NUL
    {
      if v[i] == CR || v[i] == LF || v[i] == NUL {
        return false;
      }
      i := i + 1;
    }
    ok := true;
  }

  /** for_each_line, each line appended behind the prefix. */
  method AppendLines(out: seq<byte>, prefix: seq<byte>, text: seq<byte>) returns (r: seq<byte>)
    ensures r == out + Prefixed(prefix, Lines(text))
  {
    hide Prefixed, LinesFrom;
    r := out;
    var start, i := 0, 0;
    ghost var all := Prefixed(prefix, Lines(text));
    while i < |text|
      invariant 0 <= start <= i <= |text| && Break(text, start) == Break(text, i)
      invariant out + all == r + Prefixed(prefix, LinesFrom(text, start))
    {
      if text[i] != CR && text[i] != LF {
        i := i + 1;
      } else {
        LinesStep(prefix, text, start, i);
        var line := prefix + text[start..i] + [LF];
        ghost var next := PastBreak(text, i);
        Regroup(r, line, Prefixed(prefix, LinesFrom(text, next)));
        r := r + line;
        if text[i] == CR && i + 1 < |text| && text[i + 1] == LF {
          i := i + 1;
        }
        i := i + 1;
        start := i;
      }
    }
    LinesLast(prefix, text, start);
    r := r + (prefix + text[start..] + [LF]);
  }

  lemma LinesStep(prefix: seq<byte>, s: seq<byte>, i: nat, j: nat)
    requires i <= j < |s| && Break(s, i) == j
    ensures Prefixed(prefix, LinesFrom(s, i)) == prefix + s[i..j] + [LF] + Prefixed(prefix, LinesFrom(s, PastBreak(s, j)))
  {
    assert LinesFrom(s, i)[1..] == LinesFrom(s, PastBreak(s, j));
  }

  lemma LinesLast(prefix: seq<byte>, s: seq<byte>, i: nat)
    requires i <= |s| && Break(s, i) == |s|
    ensures Prefixed(prefix, LinesFrom(s, i)) == prefix + s[i..] + [LF]
  {
    assert LinesFrom(s, i)[1..] == [];
    assert Prefixed(prefix, []) == [];
  }

  method FormatEvent(out: seq<byte>, event: seq<byte>, data: seq<byte>, id: seq<byte>) returns (ok: bool, r: seq<byte>)
    ensures ok == Accepted(Message(event, data, id))
    ensures r == if ok then out + Format(Message(event, data, id)) else out
  {
    hide Prefixed, Lines, Ascii, FieldLine, Clean;
    r := out;
    var okEvent := CleanField(event);
    var okId := CleanField(id);
    ok := okEvent && okId;
    if !ok {
      return;
    }
    var a := if |id| == 0 then [] else FieldLine(Ascii("id"), id);
    var b := if |event| == 0 then [] else FieldLine(Ascii("event"), event);
    r := AppendLines(out + a + b, Ascii("data") + [COLON, SPACE], data);
    r := r + [LF];
    ghost var d := Prefixed(Ascii("data") + [COLON, SPACE], Lines(data));
    Regroup4(out, a, b, d, [LF]);
    assert a + (b + (d + [LF])) == a + b + d + [LF];
  }

  method FormatComment(out: seq<byte>, text: seq<byte>) returns (r: seq<byte>)
    ensures r == out + Format(Comment(text))
  {
    hide Prefixed, Lines;
    r := AppendLines(out, [COLON, SPACE], text);
    Regroup(out, Prefixed([COLON, SPACE], Lines(text)), [LF]);
    r := r + [LF];
  }

  method FormatRetry(out: seq<byte>, ms: int) returns (ok: bool, r: seq<byte>)
    ensures ok == Accepted(Retry(ms))
    ensures r == if ok then out + Format(Retry(ms)) else out
  {
    if ms < 0 {
      return false, out;
    }
    return true, out + (FieldLine(Ascii("retry"), Decimals.Text(ms)) + [LF]);
  }
}
