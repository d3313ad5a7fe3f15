/** The chunked coding as a grammar: what the scan accepts is exactly what the grammar renders. */
module Http1Grammar {
  import opened Bytes
  import opened Http1Chunked

  /** A chunk as written: size digits, an extension that is not looked into, and the data. */
  datatype Piece = Piece(digits: seq<byte>, ext: seq<byte>, data: seq<byte>)

  /** Chunks, the last-chunk line, and trailer lines. */
  datatype Body = Body(pieces: seq<Piece>, digits: seq<byte>, ext: seq<byte>, trailer: seq<seq<byte>>)

  predicate HexDigits(d: seq<byte>) { 1 <= |d| <= MAX_HEX && forall i | 0 <= i < |d| :: HexVal(d[i]) >= 0 }

  /** An extension after n digits: on one line, not taken for a digit, and with its CR within the limit. */
  predicate Extension(ext: seq<byte>, n: nat) {
    CR !in ext && LF !in ext && (ext != [] ==> HexVal(ext[0]) < 0) && n + |ext| < MAX_LINE
  }

  predicate LineOk(digits: seq<byte>, ext: seq<byte>) { HexDigits(digits) && Extension(ext, |digits|) }

  predicate PieceOk(p: Piece) { LineOk(p.digits, p.ext) && p.data != [] && HexNumber(p.digits) == |p.data| }

  predicate TrailerOk(lines: seq<seq<byte>>) { forall l | l in lines :: l != [] && LF !in l }

  predicate BodyOk(b: Body) {
    && (forall p | p in b.pieces :: PieceOk(p))
    && LineOk(b.digits, b.ext) && HexNumber(b.digits) == 0 && TrailerOk(b.trailer)
  }

  function LineText(digits: seq<byte>, ext: seq<byte>): seq<byte> { digits + ext + [CR, LF] }

  function PieceText(p: Piece): seq<byte> { LineText(p.digits, p.ext) + (p.data + [CR, LF]) }

  function TrailerText(lines: seq<seq<byte>>): seq<byte> {
    if lines == [] then [CR, LF] else (lines[0] + [CR, LF]) + TrailerText(lines[1..])
  }

  function BodyText(b: Body): seq<byte>
    decreases |b.pieces|
  {
    if b.pieces == [] then LineText(b.digits, b.ext) + TrailerText(b.trailer)
    else PieceText(b.pieces[0]) + BodyText(b.(pieces := b.pieces[1..]))
  }

  function Data(pieces: seq<Piece>): seq<byte> {
    if pieces == [] then [] else pieces[0].data + Data(pieces[1..])
  }

  // ---- size lines ----

  /** A size line that stands at i is read as it was written. */
  lemma LineStands(b: seq<byte>, i: nat, digits: seq<byte>, ext: seq<byte>)
    requires LineOk(digits, ext) && i + |LineText(digits, ext)| <= |b|
    requires b[i..i + |LineText(digits, ext)|] == LineText(digits, ext)
    ensures ChunkLine(b[i..]) == Line(|LineText(digits, ext)|, HexNumber(digits))
  {
    var d, e, t := |digits|, |digits| + |ext|, LineText(digits, ext);
    assert t[..d] == digits && t[d..e] == ext && t[e] == CR && t[e + 1] == LF && |t| == e + 2;
    hide LineText, ChunkLine, HexNumber;
    var s := b[i..];
    assert s[..e + 2] == t;
    assert s[..d] == s[..e + 2][..d] && s[d..e] == s[..e + 2][d..e];
    assert s[e] == s[..e + 2][e] && s[e + 1] == s[..e + 2][e + 1];
    LineAt(s, d, e);
  }

  lemma LineAt(b: seq<byte>, d: nat, e: nat)
    requires d <= e && e + 2 <= |b| && LineOk(b[..d], b[d..e]) && b[e] == CR && b[e + 1] == LF
    ensures ChunkLine(b) == Line(e + 2, HexNumber(b[..d]))
  {
    hide HexNumber;
    forall k | 0 <= k < d ensures HexVal(b[k]) >= 0 { assert b[..d][k] == b[k]; }
    forall k | d <= k < e ensures b[k] != CR && b[k] != LF { assert b[d..e][k - d] == b[k]; }
    assert d < e ==> HexVal(b[d]) < 0;
    RunIs(b, d);
    EndIs(b, d, e);
    hide HexRun, LineEnd;
  }

  lemma {:induction false} EndIs(b: seq<byte>, i: nat, e: nat)
    requires i <= e < |b| && (forall k | i <= k < e :: b[k] != CR && b[k] != LF) && b[e] == CR
    ensures LineEnd(b, i) == e
    decreases e - i
  {
    if i < e {
      EndIs(b, i + 1, e);
    }
  }

  function Digits(s: seq<byte>): seq<byte> { s[..HexRun(s)] }

  function Ext(s: seq<byte>): seq<byte> { var d := HexRun(s); s[d..LineEnd(s, d)] }

  lemma LineRead(s: seq<byte>)
    requires ChunkLine(s).Line?
    ensures LineOk(Digits(s), Ext(s)) && ChunkLine(s).size == HexNumber(Digits(s))
    ensures s[..ChunkLine(s).len] == LineText(Digits(s), Ext(s))
  {
    var d := HexRun(s);
    var e := LineEnd(s, d);
    assert s[..e + 2] == s[..d] + s[d..e] + [s[e], s[e + 1]];
  }

  // ---- trailers ----

  lemma NextLFIs(b: seq<byte>, i: nat, j: nat)
    requires i <= j < |b| && (forall k | i <= k < j :: b[k] != LF) && b[j] == LF
    ensures NextLF(b, i) == j
  {
  }

  lemma TrailerParts(lines: seq<seq<byte>>)
    requires TrailerOk(lines)
    ensures lines == [] ==> TrailerText(lines) == [CR, LF]
    ensures lines != [] ==> TrailerText(lines) == (lines[0] + [CR, LF]) + TrailerText(lines[1..])
    ensures lines != [] ==> lines[0] != [] && LF !in lines[0] && TrailerOk(lines[1..])
  {
    if lines != [] {
      assert lines[0] in lines && forall m | m in lines[1..] :: m in lines;
    }
  }

  /** Trailer lines that stand at i are read to their end. */
  lemma {:induction false} TrailerAt(b: seq<byte>, i: nat, lines: seq<seq<byte>>)
    requires TrailerOk(lines) && i + |TrailerText(lines)| <= |b| && b[i..i + |TrailerText(lines)|] == TrailerText(lines)
    ensures Trailer(b, i) == Complete(i + |TrailerText(lines)|)
    decreases |lines|
  {
    hide TrailerText, Trailer, TrailerOk;
    TrailerParts(lines);
    if lines == [] {
      NoLines(b, i);
    } else {
      var l, rest := lines[0], TrailerText(lines[1..]);
      TwoParts(b, i, l + [CR, LF], rest);
      TwoParts(b, i, l, [CR, LF]);
      LineThen(b, i, l);
      TrailerAt(b, i + |l| + 2, lines[1..]);
    }
  }

  /** The parts of what stands at i stand one after the other. */
  lemma TwoParts(b: seq<byte>, i: nat, m: seq<byte>, rest: seq<byte>)
    requires i + |m| + |rest| <= |b| && b[i..i + |m| + |rest|] == m + rest
    ensures b[i..i + |m|] == m && b[i + |m|..i + |m| + |rest|] == rest
    ensures forall k | 0 <= k < |rest| :: b[i + |m| + k] == rest[k]
  {
    var s := b[i..i + |m| + |rest|];
    assert b[i..i + |m|] == s[..|m|] && b[i + |m|..i + |m| + |rest|] == s[|m|..];
    forall k | 0 <= k < |rest| ensures b[i + |m| + k] == rest[k] {
      assert b[i + |m| + k] == s[|m|..][k];
    }
  }

  lemma NoLines(b: seq<byte>, i: nat)
    requires i + 2 <= |b| && b[i..i + 2] == [CR, LF]
    ensures Trailer(b, i) == Complete(i + 2)
  {
    assert b[i] == b[i..i + 2][0] && b[i + 1] == b[i..i + 2][1];
    NextLFIs(b, i, i + 1);
  }

  /** A trailer line that stands at i is passed over. */
  lemma LineThen(b: seq<byte>, i: nat, l: seq<byte>)
    requires l != [] && LF !in l && i + |l| + 2 <= |b| && b[i..i + |l|] == l && b[i + |l|] == CR && b[i + |l| + 1] == LF
    ensures Trailer(b, i) == Trailer(b, i + |l| + 2)
  {
    hide NextLF;
    LineIn(b, i, l);
    TrailerOn(b, i, i + |l| + 1);
  }

  lemma LineIn(b: seq<byte>, i: nat, l: seq<byte>)
    requires LF !in l && i + |l| + 2 <= |b| && b[i..i + |l|] == l && b[i + |l|] == CR && b[i + |l| + 1] == LF
    ensures NextLF(b, i) == i + |l| + 1
  {
    hide NextLF;
    var j := i + |l| + 1;
    forall k | i <= k < j ensures b[k] != LF {
      if k < i + |l| {
        assert b[k] == b[i..i + |l|][k - i];
      }
    }
    NextLFIs(b, i, j);
  }

  /** A line that is not the last. */
  lemma TrailerOn(b: seq<byte>, i: nat, j: nat)
    requires i < j < |b| && NextLF(b, i) == j && b[j - 1] == CR && j - i > 1
    ensures Trailer(b, i) == Trailer(b, j + 1)
  {
    hide NextLF;
  }

  function TrailerLines(b: seq<byte>, i: nat): seq<seq<byte>>
    requires i <= |b|
    decreases |b| - i
  {
    var j := NextLF(b, i);
    if j == |b| || j <= i + 1 then [] else [b[i..j - 1]] + TrailerLines(b, j + 1)
  }

  lemma {:induction false} TrailerRead(b: seq<byte>, i: nat)
    requires i <= |b| && Trailer(b, i).Complete?
    ensures TrailerOk(TrailerLines(b, i)) && b[i..Trailer(b, i).raw] == TrailerText(TrailerLines(b, i))
    decreases |b| - i
  {
    var j := NextLF(b, i);
    if j == i + 1 {
      assert b[i..i + 2] == [CR, LF];
    } else {
      TrailerOn(b, i, j);
      var l, rest := b[i..j - 1], TrailerLines(b, j + 1);
      assert l != [] && LF !in l && b[j - 1] == CR && b[j] == LF;
      assert TrailerLines(b, i) == [l] + rest;
      hide NextLF, Trailer, TrailerLines, TrailerText;
      TrailerRead(b, j + 1);
      MoreLines(l, rest);
      CutLine(b, i, j, Trailer(b, i).raw);
    }
  }

  lemma MoreLines(l: seq<byte>, rest: seq<seq<byte>>)
    ensures TrailerText([l] + rest) == (l + [CR, LF]) + TrailerText(rest)
    ensures l != [] && LF !in l && TrailerOk(rest) ==> TrailerOk([l] + rest)
  {
    assert ([l] + rest)[1..] == rest;
  }

  lemma CutLine(b: seq<byte>, i: nat, j: nat, raw: nat)
    requires i < j < raw <= |b| && b[j - 1] == CR && b[j] == LF
    ensures b[i..raw] == (b[i..j - 1] + [CR, LF]) + b[j + 1..raw]
  {
  }

  // ---- bodies ----

  /** Whatever the grammar renders is accepted to its last octet, wherever it stands, and decodes to its data. */
  lemma RenderedIsAccepted(a: seq<byte>, body: Body, x: seq<byte>)
    requires BodyOk(body)
    ensures var b := a + BodyText(body) + x;
            Chunks(b, |a|) == Complete(|a| + |BodyText(body)|) && Payload(b, |a|) == Data(body.pieces)
  {
    hide BodyOk, BodyText, Chunks, Payload, Data;
    var t := BodyText(body);
    assert (a + t + x)[|a|..|a| + |t|] == t;
    RenderedAt(a + t + x, |a|, body);
  }

  lemma {:induction false} RenderedAt(b: seq<byte>, i: nat, body: Body)
    requires BodyOk(body) && i + |BodyText(body)| <= |b| && b[i..i + |BodyText(body)|] == BodyText(body)
    ensures Chunks(b, i) == Complete(i + |BodyText(body)|) && Payload(b, i) == Data(body.pieces)
    decreases |body.pieces|
  {
    hide ChunkLine, Trailer, Chunks, Payload, LineText, TrailerText, PieceOk, PieceText, LineOk, HexNumber, TrailerOk;
    if body.pieces == [] {
      var l, t := LineText(body.digits, body.ext), TrailerText(body.trailer);
      TwoParts(b, i, l, t);
      LineStands(b, i, body.digits, body.ext);
      TrailerAt(b, i + |l|, body.trailer);
      LastAt(b, i, |l|, i + |l| + |t|);
    } else {
      var p, tail := body.pieces[0], body.(pieces := body.pieces[1..]);
      assert BodyText(body) == PieceText(p) + BodyText(tail);
      assert PieceOk(p) && BodyOk(tail) by {
        assert p in body.pieces && forall q | q in tail.pieces :: q in body.pieces;
      }
      TwoParts(b, i, PieceText(p), BodyText(tail));
      PieceStands(b, i, p);
      RenderedAt(b, i + |PieceText(p)|, tail);
    }
  }

  lemma LastAt(b: seq<byte>, i: nat, n: nat, raw: nat)
    requires i <= |b| && ChunkLine(b[i..]) == Line(n, 0) && Trailer(b, i + n) == Complete(raw)
    ensures Chunks(b, i) == Complete(raw) && Payload(b, i) == []
  {
    hide ChunkLine, Trailer;
  }

  lemma PieceStands(b: seq<byte>, i: nat, p: Piece)
    requires PieceOk(p) && i + |PieceText(p)| <= |b| && b[i..i + |PieceText(p)|] == PieceText(p)
    ensures Chunks(b, i) == Chunks(b, i + |PieceText(p)|) && Payload(b, i) == p.data + Payload(b, i + |PieceText(p)|)
  {
    hide ChunkLine, Chunks, Payload, HexNumber, LineOk, LineText;
    var l, n := LineText(p.digits, p.ext), |p.data|;
    TwoParts(b, i, l, p.data + [CR, LF]);
    TwoParts(b, i + |l|, p.data, [CR, LF]);
    LineStands(b, i, p.digits, p.ext);
    var at := i + |l|;
    assert b[at + n] == [CR, LF][0] && b[at + n + 1] == [CR, LF][1];
    ChunksStep(b, i, |l|, n, at + n + 2);
  }

  // ---- every payload has a rendering ----

  function HexDigit(v: nat): byte
    requires v < 16
  {
    if v < 10 then 48 + v else 87 + v
  }

  function HexText(n: nat): (t: seq<byte>)
    ensures |t| >= 1 && (forall i | 0 <= i < |t| :: HexVal(t[i]) >= 0) && HexNumber(t) == n
  {
    if n < 16 then
      OneMore([], n);
      [HexDigit(n)]
    else
      var t := HexText(n / 16);
      OneMore(t, n % 16);
      SixteensAndOnes(n);
      t + [HexDigit(n % 16)]
  }

  lemma OneMore(t: seq<byte>, d: nat)
    requires d < 16 && forall i | 0 <= i < |t| :: HexVal(t[i]) >= 0
    ensures forall i | 0 <= i <= |t| :: HexVal((t + [HexDigit(d)])[i]) >= 0
    ensures HexNumber(t + [HexDigit(d)]) == 16 * HexNumber(t) + d
  {
    assert (t + [HexDigit(d)])[..|t|] == t;
  }

  lemma SixteensAndOnes(n: nat)
    ensures 16 * (n / 16) + n % 16 == n
  {
  }

  lemma {:induction false} HexTextLength(n: nat, k: nat)
    requires n < Power16(k) && k >= 1
    ensures |HexText(n)| <= k
  {
    if n >= 16 {
      assert n / 16 < Power16(k - 1);
      HexTextLength(n / 16, k - 1);
    }
  }

  /** A chunk a 64-bit length can describe, and that does not look like the last. */
  predicate Sendable(data: seq<byte>) { 0 < |data| < Power16(MAX_HEX) }

  /** Chunks in lower-case digits, with no extension and no trailer. */
  function Encoded(chunks: seq<seq<byte>>): Body {
    Body(seq(|chunks|, k requires 0 <= k < |chunks| => Piece(HexText(|chunks[k]|), [], chunks[k])), [48], [], [])
  }

  /** Any chunks can be sent: their encoding is accepted to its last octet and decodes to them joined. */
  lemma EncodedBodyDecodes(a: seq<byte>, chunks: seq<seq<byte>>, x: seq<byte>)
    requires forall c | c in chunks :: Sendable(c)
    ensures var b := a + BodyText(Encoded(chunks)) + x;
            Chunks(b, |a|) == Complete(|a| + |BodyText(Encoded(chunks))|) && Payload(b, |a|) == Join(chunks)
  {
    hide Chunks, Payload, BodyText;
    EncodedOk(chunks);
    EncodedData(chunks);
    RenderedIsAccepted(a, Encoded(chunks), x);
  }

  lemma EncodedOk(chunks: seq<seq<byte>>)
    requires forall c | c in chunks :: Sendable(c)
    ensures BodyOk(Encoded(chunks))
  {
    hide PieceOk;
    var pieces := Encoded(chunks).pieces;
    forall k | 0 <= k < |pieces| ensures PieceOk(pieces[k]) {
      assert chunks[k] in chunks;
      SendablePiece(chunks[k]);
    }
    assert [48][..0] == [] && HexNumber([48]) == 0;
  }

  lemma SendablePiece(c: seq<byte>)
    requires Sendable(c)
    ensures PieceOk(Piece(HexText(|c|), [], c))
  {
    HexTextLength(|c|, MAX_HEX);
  }

  lemma {:induction false} EncodedData(chunks: seq<seq<byte>>)
    ensures Data(Encoded(chunks).pieces) == Join(chunks)
  {
    if chunks != [] {
      assert Encoded(chunks).pieces[1..] == Encoded(chunks[1..]).pieces;
      EncodedData(chunks[1..]);
    }
  }

  // ---- what is accepted is rendered ----

  /** The reading of an accepted body. */
  function Reading(b: seq<byte>, i: nat): Body
    requires i <= |b|
    decreases |b| - i
  {
    var s := b[i..];
    match ChunkLine(s)
    case Line(n, size) =>
      if size == 0 then Body([], Digits(s), Ext(s), TrailerLines(b, i + n))
      else (match AfterData(b, i + n, size)
            case Next(pos) => Prefixed(Piece(Digits(s), Ext(s), b[i + n..i + n + size]), Reading(b, pos))
            case _ => Body([], [], [], []))
    case _ => Body([], [], [], [])
  }

  function Prefixed(p: Piece, body: Body): Body { body.(pieces := [p] + body.pieces) }

  lemma ReadingAt(b: seq<byte>, i: nat)
    requires i <= |b| && ChunkLine(b[i..]).Line?
    ensures var s := b[i..];
            var line := ChunkLine(s);
            && (line.size == 0 ==> Reading(b, i) == Body([], Digits(s), Ext(s), TrailerLines(b, i + line.len)))
            && (line.size != 0 ==>
                  match AfterData(b, i + line.len, line.size)
                  case Next(pos) => Reading(b, i) == Prefixed(Piece(Digits(s), Ext(s), b[i + line.len..i + line.len + line.size]), Reading(b, pos))
                  case _ => true)
  {
    hide ChunkLine, AfterData, Digits, Ext, TrailerLines;
  }

  /** One piece more in front. */
  lemma PrefixedText(p: Piece, body: Body)
    ensures BodyText(Prefixed(p, body)) == PieceText(p) + BodyText(body)
    ensures Data(Prefixed(p, body).pieces) == p.data + Data(body.pieces)
    ensures PieceOk(p) && BodyOk(body) ==> BodyOk(Prefixed(p, body))
  {
    hide PieceOk, PieceText, LineOk, HexNumber, TrailerOk;
    assert ([p] + body.pieces)[1..] == body.pieces;
    assert Prefixed(p, body).(pieces := body.pieces) == body;
  }

  /** body is what stands at i, octet for octet up to where the scan ends, and its data is what is decoded. */
  ghost predicate Stands(b: seq<byte>, i: nat, body: Body) {
    && i <= |b| && Chunks(b, i).Complete?
    && BodyOk(body) && b[i..Chunks(b, i).raw] == BodyText(body) && Payload(b, i) == Data(body.pieces)
  }

  /** Whatever is accepted is rendered by the grammar. */
  lemma {:induction false} AcceptedIsRendered(b: seq<byte>, i: nat)
    requires i <= |b| && Chunks(b, i).Complete?
    ensures Stands(b, i, Reading(b, i))
    decreases |b| - i
  {
    hide ChunkLine, Chunks, Payload, Reading, Stands;
    PayloadStep(b, i);
    var line := ChunkLine(b[i..]);
    if line.size == 0 {
      LastRead(b, i);
    } else {
      AcceptedIsRendered(b, i + line.len + line.size + 2);
      PieceRead(b, i, line.len, line.size);
    }
  }

  lemma LastRead(b: seq<byte>, i: nat)
    requires i <= |b| && Chunks(b, i).Complete? && ChunkLine(b[i..]).Line? && ChunkLine(b[i..]).size == 0
    ensures Stands(b, i, Reading(b, i))
  {
    hide ChunkLine, Trailer, Chunks, Payload, Reading, LineText, TrailerText, LineOk, HexNumber, Digits, Ext, TrailerOk, TrailerLines;
    PayloadStep(b, i);
    ChunksAt(b, i);
    ReadingAt(b, i);
    var s := b[i..];
    var n, raw := ChunkLine(s).len, Chunks(b, i).raw;
    LineRead(s);
    TrailerRead(b, i + n);
    Cut(b, i, i + n, raw);
  }

  lemma Cut(b: seq<byte>, i: nat, j: nat, raw: nat)
    requires i <= j <= raw <= |b|
    ensures b[i..raw] == b[i..j] + b[j..raw] && b[i..j] == b[i..][..j - i]
  {
  }

  lemma PieceRead(b: seq<byte>, i: nat, n: nat, size: nat)
    requires i + n + size + 2 <= |b| && size != 0 && ChunkLine(b[i..]) == Line(n, size) && Chunks(b, i).Complete?
    requires Stands(b, i + n + size + 2, Reading(b, i + n + size + 2))
    ensures Stands(b, i, Reading(b, i))
  {
    hide ChunkLine, Trailer, Chunks, Payload, Reading, LineText, LineOk, HexNumber, Digits, Ext, BodyText, BodyOk, Data, Prefixed;
    var at, next := i + n, i + n + size + 2;
    PayloadStep(b, i);
    ChunksAt(b, i);
    ReadingAt(b, i);
    LineRead(b[i..]);
    var p := Piece(Digits(b[i..]), Ext(b[i..]), b[at..at + size]);
    PrefixedText(p, Reading(b, next));
    assert b[at..next] == p.data + [CR, LF];
    Cut(b, i, at, next);
    Cut(b, i, next, Chunks(b, i).raw);
  }
}
