/** The chunked transfer coding of section 7.1 of RFC 9112: the scan, the reference decoder, and decoding in place. */
module Http1Chunked {
  import opened Bytes

  const CR: byte := 13
  const LF: byte := 10
  const MAX_HEX: nat := 16
  const MAX_LINE: nat := 4096

  // ---- chunk-size lines ----

  function HexVal(c: byte): (v: int)
    ensures -1 <= v < 16
  {
    if 48 <= c <= 57 then c - 48
    else if 97 <= c <= 102 then c - 87
    else if 65 <= c <= 70 then c - 55
    else -1
  }

  /** The length of the longest prefix of hex digits. */
  function HexRun(b: seq<byte>): (n: nat)
    ensures n <= |b| && (forall i | 0 <= i < n :: HexVal(b[i]) >= 0) && (n < |b| ==> HexVal(b[n]) < 0)
  {
    if b == [] || HexVal(b[0]) < 0 then 0 else 1 + HexRun(b[1..])
  }

  function HexNumber(b: seq<byte>): nat
    requires forall i | 0 <= i < |b| :: HexVal(b[i]) >= 0
  {
    if b == [] then 0 else 16 * HexNumber(b[..|b| - 1]) + HexVal(b[|b| - 1])
  }

  /** The first CR or LF at i or later, or the end. */
  function LineEnd(b: seq<byte>, i: nat): (e: nat)
    requires i <= |b|
    ensures i <= e <= |b| && (forall k | i <= k < e :: b[k] != CR && b[k] != LF) && (e < |b| ==> b[e] == CR || b[e] == LF)
    decreases |b| - i
  {
    if i == |b| || b[i] == CR || b[i] == LF then i else LineEnd(b, i + 1)
  }

  datatype Line = Short | Bad | Line(len: nat, size: nat)

  /** What stands at the end of a line decides it. */
  function EndOfLine(b: seq<byte>, e: nat, size: nat): Line
    requires e < |b|
  {
    if b[e] == LF then Bad
    else if e + 1 == |b| then Short
    else if b[e + 1] != LF then Bad
    else Line(e + 2, size)
  }

  /** chunk_size_line: the CR of a line must be among its first 4096 octets. */
  function ChunkLine(b: seq<byte>): (r: Line)
    ensures r.Line? ==> 3 <= r.len <= |b|
  {
    var d := HexRun(b);
    if d > MAX_HEX then Bad
    else if d == |b| then Short
    else if d == 0 then Bad
    else
      var e := LineEnd(b, d);
      if e >= MAX_LINE then (if |b| == MAX_LINE then Short else Bad)
      else if e == |b| then Short
      else EndOfLine(b, e, HexNumber(b[..d]))
  }

  /** The reference decoder's line: one octet more is allowed. */
  function RefLine(b: seq<byte>): (r: Line)
    ensures r.Line? ==> 3 <= r.len <= |b|
  {
    var d := HexRun(b);
    if d > MAX_HEX then Bad
    else if d == |b| then Short
    else if d == 0 then Bad
    else
      var e := LineEnd(b, d);
      if e > MAX_LINE then Bad
      else if e == |b| then Short
      else EndOfLine(b, e, HexNumber(b[..d]))
  }

  /** A line whose CR is at offset 4096 exactly, and so far well ended. */
  predicate Awkward(b: seq<byte>) {
    var d := HexRun(b);
    && 0 < d <= MAX_HEX && d < |b| && LineEnd(b, d) == MAX_LINE < |b| && b[MAX_LINE] == CR
    && (|b| == MAX_LINE + 1 || b[MAX_LINE + 1] == LF)
  }

  lemma LinesAgree(b: seq<byte>)
    ensures ChunkLine(b) == RefLine(b) <==> !Awkward(b)
    ensures Awkward(b) ==> ChunkLine(b) == Bad
  {
  }

  /** Sixteen digits fit in 64 bits. */
  lemma {:induction false} HexFits(b: seq<byte>)
    requires |b| <= MAX_HEX && forall i | 0 <= i < |b| :: HexVal(b[i]) >= 0
    ensures HexNumber(b) < Power16(|b|) <= 0x1_0000_0000_0000_0000
  {
    if b != [] {
      HexFits(b[..|b| - 1]);
    }
    Power16Bound(|b|);
  }

  function Power16(n: nat): (p: nat)
    ensures p >= 1
  {
    if n == 0 then 1 else 16 * Power16(n - 1)
  }

  lemma Power16Bound(n: nat)
    requires n <= MAX_HEX
    ensures Power16(n) <= 0x1_0000_0000_0000_0000
  {
    Power16Grows(n, MAX_HEX);
    assert Power16(4) == 0x1_0000;
    assert Power16(8) == 0x1_0000_0000 by { assert Power16(6) == 0x100_0000; }
    assert Power16(12) == 0x1_0000_0000_0000 by { assert Power16(10) == 0x100_0000_0000; }
    assert Power16(16) == 0x1_0000_0000_0000_0000 by { assert Power16(14) == 0x100_0000_0000_0000; }
  }

  lemma {:induction false} Power16Grows(m: nat, n: nat)
    requires m <= n
    ensures Power16(m) <= Power16(n)
  {
    if m < n {
      Power16Grows(m, n - 1);
    }
  }

  // ---- bodies ----

  datatype Scan = Incomplete | Malformed | Complete(raw: nat)

  function NextLF(b: seq<byte>, i: nat): (j: nat)
    requires i <= |b|
    ensures i <= j <= |b| && (forall k | i <= k < j :: b[k] != LF) && (j < |b| ==> b[j] == LF)
    decreases |b| - i
  {
    if i == |b| || b[i] == LF then i else NextLF(b, i + 1)
  }

  /** Trailer lines, up to the empty one. */
  function Trailer(b: seq<byte>, i: nat): (r: Scan)
    requires i <= |b|
    ensures r.Complete? ==> i + 2 <= r.raw <= |b|
    decreases |b| - i
  {
    var j := NextLF(b, i);
    if j == |b| then Incomplete
    else if j == i || b[j - 1] != CR then Malformed
    else if j + 1 - i == 2 then Complete(j + 1)
    else Trailer(b, j + 1)
  }

  /** What follows a chunk-size line at p: its data and the CRLF after it. */
  datatype Chunk = NoData | BadEnd | Next(pos: nat)

  function AfterData(b: seq<byte>, p: nat, size: nat): (r: Chunk)
    requires p <= |b|
    ensures r.Next? ==> r.pos == p + size + 2 <= |b|
  {
    if size > |b| - p || |b| - p - size < 2 then NoData
    else if b[p + size] != CR || b[p + size + 1] != LF then BadEnd
    else Next(p + size + 2)
  }

  /** scan_chunked, from a chunk boundary on. */
  function Chunks(b: seq<byte>, i: nat): (r: Scan)
    requires i <= |b|
    ensures r.Complete? ==> i < r.raw <= |b|
    decreases |b| - i
  {
    match ChunkLine(b[i..])
    case Short => Incomplete
    case Bad => Malformed
    case Line(n, size) =>
      if size == 0 then Trailer(b, i + n)
      else match AfterData(b, i + n, size)
        case NoData => Incomplete
        case BadEnd => Malformed
        case Next(pos) => Chunks(b, pos)
  }

  /** One turn of the scan. */
  lemma ChunksAt(b: seq<byte>, i: nat)
    requires i <= |b|
    ensures Chunks(b, i) ==
              match ChunkLine(b[i..])
              case Short => Incomplete
              case Bad => Malformed
              case Line(n, size) =>
                if size == 0 then Trailer(b, i + n)
                else match AfterData(b, i + n, size)
                  case NoData => Incomplete
                  case BadEnd => Malformed
                  case Next(pos) => Chunks(b, pos)
  {
    hide ChunkLine, Trailer, AfterData;
  }

  datatype Decoded = NotYet | Broken | Whole(raw: nat, payload: seq<byte>)

  function Verdict(d: Decoded): Scan {
    match d
    case NotYet => Incomplete
    case Broken => Malformed
    case Whole(raw, _) => Complete(raw)
  }

  function Prepend(data: seq<byte>, d: Decoded): Decoded { if d.Whole? then Whole(d.raw, data + d.payload) else d }

  /** The independent decoder. */
  function Reference(b: seq<byte>, i: nat): (r: Decoded)
    requires i <= |b|
    decreases |b| - i
  {
    match RefLine(b[i..])
    case Short => NotYet
    case Bad => Broken
    case Line(n, size) =>
      if size == 0 then
        match Trailer(b, i + n)
        case Incomplete => NotYet
        case Malformed => Broken
        case Complete(raw) => Whole(raw, [])
      else match AfterData(b, i + n, size)
        case NoData => NotYet
        case BadEnd => Broken
        case Next(pos) => Prepend(b[i + n..i + n + size], Reference(b, pos))
  }

  /** Some line the reference comes to is awkward. */
  predicate Overlong(b: seq<byte>, i: nat)
    requires i <= |b|
    decreases |b| - i
  {
    || Awkward(b[i..])
    || match RefLine(b[i..])
       case Line(n, size) => size != 0 && (match AfterData(b, i + n, size) case Next(pos) => Overlong(b, pos) case _ => false)
       case _ => false
  }

  /** The scan and the reference give one verdict and one length, except that a CR at offset 4096 of its line is refused. */
  lemma {:induction false} ScanAgrees(b: seq<byte>, i: nat)
    requires i <= |b|
    ensures Chunks(b, i) == if Overlong(b, i) then Malformed else Verdict(Reference(b, i))
    decreases |b| - i
  {
    hide ChunkLine, RefLine, Awkward, Trailer;
    LinesAgree(b[i..]);
    match RefLine(b[i..]) {
      case Line(n, size) =>
        if size != 0 {
          match AfterData(b, i + n, size) {
            case Next(pos) => ScanAgrees(b, pos);
            case _ =>
          }
        }
      case _ =>
    }
  }

  // ---- stability ----

  lemma {:induction false} HexRunStable(b: seq<byte>, x: seq<byte>)
    ensures HexRun(b) < |b| ==> HexRun(b + x) == HexRun(b)
    ensures HexRun(b) == |b| ==> HexRun(b + x) >= |b|
  {
    if b != [] {
      assert (b + x)[1..] == b[1..] + x;
      HexRunStable(b[1..], x);
    }
  }

  lemma {:induction false} LineEndStable(b: seq<byte>, x: seq<byte>, i: nat)
    requires i <= |b|
    ensures LineEnd(b, i) < |b| ==> LineEnd(b + x, i) == LineEnd(b, i)
    ensures LineEnd(b, i) == |b| ==> LineEnd(b + x, i) >= |b|
    decreases |b| - i
  {
    if i < |b| {
      LineEndStable(b, x, i + 1);
    }
  }

  lemma ChunkLineStable(b: seq<byte>, x: seq<byte>)
    requires ChunkLine(b) != Short
    ensures ChunkLine(b + x) == ChunkLine(b)
  {
    HexRunStable(b, x);
    var d := HexRun(b);
    if d < |b| {
      LineEndStable(b, x, d);
      assert (b + x)[..d] == b[..d];
    }
  }

  lemma {:induction false} NextLFStable(b: seq<byte>, x: seq<byte>, i: nat)
    requires i <= |b|
    ensures NextLF(b, i) < |b| ==> NextLF(b + x, i) == NextLF(b, i)
    decreases |b| - i
  {
    if i < |b| {
      NextLFStable(b, x, i + 1);
    }
  }

  lemma {:induction false} TrailerStable(b: seq<byte>, x: seq<byte>, i: nat)
    requires i <= |b| && Trailer(b, i) != Incomplete
    ensures Trailer(b + x, i) == Trailer(b, i)
    decreases |b| - i
  {
    NextLFStable(b, x, i);
    var j := NextLF(b, i);
    if j != i && b[j - 1] == CR && j + 1 - i != 2 {
      TrailerStable(b, x, j + 1);
    }
  }

  /** More input changes no verdict but "incomplete". */
  lemma {:induction false} ScanStable(b: seq<byte>, x: seq<byte>, i: nat)
    requires i <= |b| && Chunks(b, i) != Incomplete
    ensures Chunks(b + x, i) == Chunks(b, i)
    decreases |b| - i
  {
    hide ChunkLine, Trailer, AfterData, Chunks;
    ChunksAt(b, i);
    ChunksAt(b + x, i);
    assert (b + x)[i..] == b[i..] + x;
    ChunkLineStable(b[i..], x);
    match ChunkLine(b[i..]) {
      case Line(n, size) =>
        if size == 0 {
          TrailerStable(b, x, i + n);
        } else {
          AfterDataStable(b, x, i + n, size);
          match AfterData(b, i + n, size) {
            case Next(pos) => ScanStable(b, x, pos);
            case _ =>
          }
        }
      case _ =>
    }
  }

  lemma AfterDataStable(b: seq<byte>, x: seq<byte>, p: nat, size: nat)
    requires p <= |b|
    ensures AfterData(b, p, size) != NoData ==> AfterData(b + x, p, size) == AfterData(b, p, size)
  {
  }

  // ---- the scan as it runs ----

  /** The digits are read one by one, at most one more than allowed. */
  method ReadDigits(b: seq<byte>) returns (v: nat, n: nat)
    ensures n <= |b| && n <= MAX_HEX + 1 && (forall k | 0 <= k < n :: HexVal(b[k]) >= 0) && v == HexNumber(b[..n])
    ensures if n <= MAX_HEX then HexRun(b) == n else HexRun(b) > MAX_HEX
  {
    hide HexRun;
    v, n := 0, 0;
    while n < |b| && n <= MAX_HEX && HexVal(b[n]) >= 0
      invariant n <= |b| && n <= MAX_HEX + 1 && (forall k | 0 <= k < n :: HexVal(b[k]) >= 0)
      invariant v == HexNumber(b[..n])
    {
      assert b[..n + 1][..n] == b[..n];
      v, n := 16 * v + HexVal(b[n]), n + 1;
    }
    RunIs(b, n);
  }

  method ChunkSizeLine(b: seq<byte>) returns (r: Line)
    ensures r == ChunkLine(b)
  {
    hide HexRun, HexNumber, LineEnd;
    var v, d := ReadDigits(b);
    if d > MAX_HEX {
      return Bad;
    }
    if d == |b| {
      return Short;
    }
    if d == 0 {
      return Bad;
    }
    var i := d;
    while i < |b| && i < MAX_LINE
      invariant d <= i <= |b| && i <= MAX_LINE && LineEnd(b, d) == LineEnd(b, i)
    {
      LineEndAt(b, i);
      if b[i] == LF {
        return Bad;
      }
      if b[i] == CR {
        if i + 1 == |b| {
          return Short;
        }
        if b[i + 1] != LF {
          return Bad;
        }
        return Line(i + 2, v);
      }
      i := i + 1;
    }
    LineEndAt(b, i);
    return if i == |b| then Short else Bad;
  }

  lemma LineEndAt(b: seq<byte>, i: nat)
    requires i <= |b|
    ensures LineEnd(b, i) == if i == |b| || b[i] == CR || b[i] == LF then i else LineEnd(b, i + 1)
  {
  }

  /** A run of hex digits that ends here, or is already too long, is the run. */
  lemma {:induction false} RunIs(b: seq<byte>, i: nat)
    requires i <= |b| && forall k | 0 <= k < i :: HexVal(b[k]) >= 0
    ensures HexRun(b) >= i
    ensures i == |b| || HexVal(b[i]) < 0 ==> HexRun(b) == i
  {
    if i > 0 {
      RunIs(b[1..], i - 1);
    }
  }

  /** Neither guard is ever what ends a loop. */
  method ScanChunked(b: seq<byte>) returns (r: Scan)
    ensures r == Chunks(b, 0)
  {
    hide ChunkLine, Trailer;
    var pos, guard := 0, 0;
    while guard <= |b|
      invariant guard <= pos <= |b| && Chunks(b, 0) == Chunks(b, pos)
      decreases |b| + 1 - guard
    {
      var line := ChunkSizeLine(b[pos..]);
      match line {
        case Short => return Incomplete;
        case Bad => return Malformed;
        case Line(n, size) =>
          if size == 0 {
            r := ScanTrailer(b, pos + n);
            return;
          }
          match AfterData(b, pos + n, size) {
            case NoData => return Incomplete;
            case BadEnd => return Malformed;
            case Next(p) => pos, guard := p, guard + 1;
          }
      }
    }
    assert false;
  }

  method ScanTrailer(b: seq<byte>, at: nat) returns (r: Scan)
    requires at <= |b|
    ensures r == Trailer(b, at)
  {
    var pos, guard := at, 0;
    while guard <= |b|
      invariant at + guard <= pos <= |b| && Trailer(b, at) == Trailer(b, pos)
      decreases |b| + 1 - guard
    {
      var start := pos;
      while pos < |b| && b[pos] != LF
        invariant start <= pos <= |b| && NextLF(b, start) == NextLF(b, pos)
      {
        pos := pos + 1;
      }
      if pos == |b| {
        return Incomplete;
      }
      if pos == start || b[pos - 1] != CR {
        return Malformed;
      }
      pos := pos + 1;
      if pos - start == 2 {
        return Complete(pos);
      }
      guard := guard + 1;
    }
    assert false;
  }

  // ---- decoding in place ----

  /** The chunk data, joined, as far as whole chunks go. */
  function Payload(b: seq<byte>, i: nat): (p: seq<byte>)
    requires i <= |b|
    decreases |b| - i
  {
    match ChunkLine(b[i..])
    case Line(n, size) =>
      if size == 0 then []
      else (match AfterData(b, i + n, size)
            case Next(pos) => b[i + n..i + n + size] + Payload(b, pos)
            case _ => [])
    case _ => []
  }

  lemma PayloadAt(b: seq<byte>, i: nat)
    requires i <= |b|
    ensures Payload(b, i) ==
              match ChunkLine(b[i..])
              case Line(n, size) =>
                if size == 0 then []
                else (match AfterData(b, i + n, size)
                      case Next(pos) => b[i + n..i + n + size] + Payload(b, pos)
                      case _ => [])
              case _ => []
  {
    hide ChunkLine, AfterData;
  }

  lemma {:induction false} PayloadIsReference(b: seq<byte>, i: nat)
    requires i <= |b| && Chunks(b, i).Complete?
    ensures Reference(b, i) == Whole(Chunks(b, i).raw, Payload(b, i))
    decreases |b| - i
  {
    hide ChunkLine, RefLine, Awkward, Trailer, AfterData, Chunks, Payload, Reference;
    ChunksAt(b, i);
    PayloadStep(b, i);
    ReferenceAt(b, i);
    LinesAgree(b[i..]);
    var line := ChunkLine(b[i..]);
    if line.size != 0 {
      PayloadIsReference(b, AfterData(b, i + line.len, line.size).pos);
    }
  }

  /** One turn of the reference decoder. */
  lemma ReferenceAt(b: seq<byte>, i: nat)
    requires i <= |b|
    ensures Reference(b, i) ==
              match RefLine(b[i..])
              case Short => NotYet
              case Bad => Broken
              case Line(n, size) =>
                if size == 0 then
                  match Trailer(b, i + n)
                  case Incomplete => NotYet
                  case Malformed => Broken
                  case Complete(raw) => Whole(raw, [])
                else match AfterData(b, i + n, size)
                  case NoData => NotYet
                  case BadEnd => Broken
                  case Next(pos) => Prepend(b[i + n..i + n + size], Reference(b, pos))
  {
    hide RefLine, Trailer, AfterData;
  }

  /** One chunk's data moves to the end of what is decoded; nothing beyond the chunk changes. */
  method TakeChunk(a: array<byte>, wr: nat, rd: nat, size: nat)
    requires wr <= rd && rd + size + 2 <= a.Length
    modifies a
    ensures a[..wr + size] == old(a[..wr]) + old(a[rd..rd + size])
    ensures a[rd + size + 2..] == old(a[rd + size + 2..])
  {
    ghost var was := a[..];
    MoveDown(a, wr, rd, size);
    JoinAt(a[..], wr, wr + size);
    SameTail(a[..], was, rd + size, rd + size + 2);
  }

  lemma SameTail(s: seq<byte>, t: seq<byte>, i: nat, j: nat)
    requires i <= j <= |s| == |t| && s[i..] == t[i..]
    ensures s[j..] == t[j..] && s[i..j] == t[i..j]
  {
    assert s[j..] == s[i..][j - i..] && t[j..] == t[i..][j - i..];
    assert s[i..j] == s[i..][..j - i] && t[i..j] == t[i..][..j - i];
  }

  lemma JoinAt(s: seq<byte>, i: nat, j: nat)
    requires i <= j <= |s|
    ensures s[..j] == s[..i] + s[i..j]
  {
  }

  /** The buffer s while body b is decoded: s[..wr] has been decoded, and from rd on nothing has changed. */
  ghost predicate Decoding(s: seq<byte>, b: seq<byte>, wr: nat, rd: nat) {
    && wr <= rd <= |s| == |b| && s[rd..] == b[rd..]
    && Chunks(b, rd).Complete? && Payload(b, 0) == s[..wr] + Payload(b, rd)
  }

  /** The next size line, read from the buffer, is the body's. */
  lemma NextLine(s: seq<byte>, b: seq<byte>, wr: nat, rd: nat)
    requires Decoding(s, b, wr, rd)
    ensures wr <= rd <= |s| == |b|
    ensures match ChunkLine(s[rd..])
            case Line(n, size) =>
              && n >= 3 && rd + n <= |s|
              && if size == 0 then Payload(b, 0) == s[..wr] else rd + n + size + 2 <= |s|
            case _ => false
  {
    hide ChunkLine, Chunks, Payload;
    Advance(b, s[..wr], rd);
  }

  /** A chunk has been taken. */
  lemma NextChunk(s: seq<byte>, s': seq<byte>, b: seq<byte>, wr: nat, rd: nat, n: nat, size: nat)
    requires Decoding(s, b, wr, rd) && ChunkLine(s[rd..]) == Line(n, size) && size != 0 && rd + n + size + 2 <= |s| == |s'|
    requires s'[..wr + size] == s[..wr] + s[rd + n..rd + n + size]
    requires s'[rd + n + size + 2..] == s[rd + n + size + 2..]
    ensures Decoding(s', b, wr + size, rd + n + size + 2)
  {
    hide ChunkLine, Chunks, Payload;
    Advance(b, s[..wr], rd);
    SameTail(s, b, rd, rd + n);
    SameTail(s, b, rd + n, rd + n + size);
    SameTail(s, b, rd + n + size, rd + n + size + 2);
  }

  lemma DecodingStarts(b: seq<byte>)
    requires Chunks(b, 0) == Complete(|b|)
    ensures Decoding(b, b, 0, 0)
  {
    hide Chunks, Payload;
    assert b[..0] + Payload(b, 0) == Payload(b, 0);
  }

  /** The decoder, reading ahead of its own writing, ends with the payload in front. */
  method DechunkInPlace(a: array<byte>) returns (n: nat)
    requires Chunks(a[..], 0) == Complete(a.Length)
    modifies a
    ensures n <= a.Length && a[..n] == Payload(old(a[..]), 0)
  {
    hide ChunkLine, Chunks, Payload, Decoding;
    ghost var b := a[..];
    DecodingStarts(b);
    var rd: nat, wr: nat, guard: nat := 0, 0, 0;
    while guard <= a.Length
      invariant Decoding(a[..], b, wr, rd) && guard <= rd <= a.Length
      decreases a.Length + 1 - guard
    {
      ghost var s := a[..];
      NextLine(s, b, wr, rd);
      assert s[rd..] == a[rd..];
      var line := ChunkSizeLine(a[rd..]);
      if line.size == 0 {
        return wr;
      }
      TakeChunk(a, wr, rd + line.len, line.size);
      NextChunk(s, a[..], b, wr, rd, line.len, line.size);
      wr, rd, guard := wr + line.size, rd + line.len + line.size + 2, guard + 1;
    }
    assert false;
  }

  /** front has been decoded, and rd is where to go on. */
  lemma Advance(b: seq<byte>, front: seq<byte>, rd: nat)
    requires rd <= |b| && Chunks(b, rd).Complete? && Payload(b, 0) == front + Payload(b, rd)
    ensures match ChunkLine(b[rd..])
            case Line(n, size) =>
              var at := rd + n;
              && n >= 3 && at <= |b|
              && (size == 0 ==> Payload(b, 0) == front)
              && (size != 0 ==>
                    && at + size + 2 <= |b| && Chunks(b, at + size + 2).Complete?
                    && Payload(b, 0) == (front + b[at..at + size]) + Payload(b, at + size + 2))
            case _ => false
  {
    hide ChunkLine, Chunks, Payload;
    PayloadStep(b, rd);
    var line := ChunkLine(b[rd..]);
    if line.size == 0 {
      assert front + [] == front;
    } else {
      Regroup(front, b[rd + line.len..rd + line.len + line.size], Payload(b, rd + line.len + line.size + 2));
    }
  }

  lemma PayloadStep(b: seq<byte>, i: nat)
    requires i <= |b| && Chunks(b, i).Complete?
    ensures match ChunkLine(b[i..])
            case Line(n, size) =>
              && n >= 3 && i + n <= |b|
              && (size == 0 ==> Payload(b, i) == [])
              && (size != 0 ==>
                    && i + n + size + 2 <= |b| && Chunks(b, i + n + size + 2).Complete?
                    && Payload(b, i) == b[i + n..i + n + size] + Payload(b, i + n + size + 2))
            case _ => false
  {
    hide ChunkLine, Trailer;
  }

  lemma ChunksStep(b: seq<byte>, i: nat, n: nat, size: nat, pos: nat)
    requires i <= |b| && ChunkLine(b[i..]) == Line(n, size) && size != 0 && AfterData(b, i + n, size) == Next(pos)
    ensures Chunks(b, i) == Chunks(b, pos) && Payload(b, i) == b[i + n..i + n + size] + Payload(b, pos)
  {
    hide ChunkLine, Trailer, AfterData, Chunks, Payload;
    ChunksAt(b, i);
    PayloadAt(b, i);
  }

  // ---- a body whose size line is one octet too long ----

  function LongLine(): seq<byte> { [48] + seq(4095, _ => 59) + [CR, LF, CR, LF] }

  /** The reference takes it for an empty body; the scan refuses it. */
  lemma LongLineRefused()
    ensures Reference(LongLine(), 0) == Whole(4100, []) && Chunks(LongLine(), 0) == Malformed
  {
    hide RefLine, ChunkLine, Awkward, Chunks, Reference, LongLine;
    var b := LongLine();
    LongLineRead();
    assert b[0..] == b;
    LinesAgree(b);
    ChunksAt(b, 0);
    ReferenceAt(b, 0);
    assert NextLF(b, 4098) == 4099;
  }

  lemma LongLineRead()
    ensures var b := LongLine();
            |b| == 4100 && b[4098] == CR && b[4099] == LF && RefLine(b) == Line(4098, 0) && Awkward(b)
  {
    var b := LongLine();
    assert forall k | 1 <= k < 4096 :: b[k] == 59;
    assert b[0] == 48 && b[4096] == CR && b[4097] == LF;
    assert b[..1] == [48] && HexNumber([48][..0]) == 0 && HexNumber([48]) == 0;
    hide LongLine, HexNumber;
    RunIs(b, 1);
    assert LineEnd(b, 1) == 4096;
  }
}
