/** HTTP/1 requests as HTTP1Parser::parse reads them, on values. */
module Http1Spec {
  import opened Bytes
  import opened Decimals
  import opened Http1Chunked

  const MAX_HEADERS: nat := 100
  const MAX_EMPTY_LINES: nat := 4
  const MAX_LENGTH: nat := 0x20_0000_0000_0000 // 2^53
  const MAX_LENGTH_DIGITS: nat := 16
  const SP: byte := 32
  const TAB: byte := 9
  const COLON: byte := 58

  /** More: the input ends too early. Fail: malformed, and foreign when it is not HTTP at all. */
  datatype Step<+T> = More | Fail(foreign: bool) | Got(value: T, pos: nat)

  const FAIL: Step<()> := Fail(false)

  // ---- runs of characters ----

  datatype Class = Token | Target | Value

  predicate TokenChar(c: byte) {
    || 48 <= c <= 57 || 97 <= c <= 122 || 65 <= c <= 90
    || c in Ascii("!#$%&'*+-.^_`|~")
  }

  predicate Allowed(k: Class, c: byte) {
    match k
    case Token => TokenChar(c)
    case Target => c >= 33 && c != 127
    case Value => (c >= 32 || c == TAB) && c != 127
  }

  /** Allowed characters up to the first stop; the position is that of the stop. */
  function Run(d: seq<byte>, pos: nat, stop: byte, k: Class): (r: Step<()>)
    ensures r.Got? ==> pos <= r.pos < |d| && d[r.pos] == stop
    decreases if pos < |d| then |d| - pos else 0
  {
    if pos >= |d| then More
    else if d[pos] == stop then Got((), pos)
    else if !Allowed(k, d[pos]) then FAIL
    else Run(d, pos + 1, stop, k)
  }

  function SkipBlank(d: seq<byte>, pos: nat): (q: nat)
    requires pos <= |d|
    ensures pos <= q <= |d|
    decreases |d| - pos
  {
    if pos < |d| && (d[pos] == SP || d[pos] == TAB) then SkipBlank(d, pos + 1) else pos
  }

  function Trim(v: seq<byte>): seq<byte> {
    if v != [] && (v[|v| - 1] == SP || v[|v| - 1] == TAB || v[|v| - 1] == CR || v[|v| - 1] == LF) then Trim(v[..|v| - 1]) else v
  }

  // ---- the request line ----

  /** A CRLF expected at pos. */
  function LineBreak(d: seq<byte>, pos: nat): (r: Step<()>)
    requires pos < |d| && d[pos] == CR
    ensures r.Got? ==> r.pos == pos + 2 <= |d|
  {
    if pos + 1 >= |d| then More else if d[pos + 1] != LF then FAIL else Got((), pos + 2)
  }

  function SkipLines(d: seq<byte>, pos: nat, k: nat): (r: Step<()>)
    requires pos <= |d|
    ensures r.Got? ==> pos <= r.pos <= |d|
    decreases k
  {
    if k == 0 || pos >= |d| || d[pos] != CR then Got((), pos)
    else match LineBreak(d, pos)
      case More => More
      case Fail(f) => Fail(f)
      case Got(_, p) => SkipLines(d, p, k - 1)
  }

  function Word(d: seq<byte>, pos: nat, stop: byte, k: Class): (r: Step<seq<byte>>)
    ensures r.Got? ==> pos < r.pos <= |d|
  {
    match Run(d, pos, stop, k)
    case More => More
    case Fail(f) => Fail(f)
    case Got(_, p) => if p == pos then Fail(false) else Got(d[pos..p], p + 1)
  }

  datatype Version = Http10 | Http11

  const HTTP11: seq<byte> := Ascii("HTTP/1.1\r\n")
  const HTTP10: seq<byte> := Ascii("HTTP/1.0\r\n")

  /** A text that does not even begin like "HTTP/" is another protocol's. */
  function ParseVersion(d: seq<byte>, pos: nat): (r: Step<Version>)
    requires pos <= |d|
    ensures r.Got? ==> r.pos == pos + 10 <= |d|
  {
    var seen := if |d| - pos < 5 then |d| - pos else 5;
    if d[pos..pos + seen] != Ascii("HTTP/")[..seen] then Fail(true)
    else if pos + 10 > |d| then More
    else if d[pos..pos + 10] == HTTP11 then Got(Http11, pos + 10)
    else if d[pos..pos + 10] == HTTP10 then Got(Http10, pos + 10)
    else Fail(false)
  }

  // ---- header fields ----

  datatype Header = Header(name: seq<byte>, value: seq<byte>)

  function ParseValue(d: seq<byte>, q: nat): (r: Step<seq<byte>>)
    requires q <= |d|
    ensures r.Got? ==> q + 2 <= r.pos <= |d|
  {
    match Run(d, q, CR, Value)
    case More => More
    case Fail(f) => Fail(f)
    case Got(_, e) =>
      match LineBreak(d, e)
      case More => More
      case Fail(f) => Fail(f)
      case Got(_, p) => Got(Trim(d[q..e]), p)
  }

  function ParseHeader(d: seq<byte>, pos: nat): (r: Step<Header>)
    ensures r.Got? ==> pos < r.pos <= |d|
  {
    match Word(d, pos, COLON, Token)
    case More => More
    case Fail(f) => Fail(f)
    case Got(name, p) =>
      match ParseValue(d, SkipBlank(d, p))
      case More => More
      case Fail(f) => Fail(f)
      case Got(value, q) => Got(Header(name, value), q)
  }

  /** n fields have been read already. */
  function ParseHeaders(d: seq<byte>, pos: nat, n: nat): (r: Step<seq<Header>>)
    requires pos <= |d|
    ensures r.Got? ==> pos <= r.pos <= |d| && n + |r.value| <= if n <= MAX_HEADERS then MAX_HEADERS else n
    decreases |d| - pos
  {
    if pos >= |d| then More
    else if d[pos] == CR then
      match LineBreak(d, pos)
      case More => More
      case Fail(f) => Fail(f)
      case Got(_, p) => Got([], p)
    else if n >= MAX_HEADERS then Fail(false)
    else
      match ParseHeader(d, pos)
      case More => More
      case Fail(f) => Fail(f)
      case Got(h, p) =>
        match ParseHeaders(d, p, n + 1)
        case More => More
        case Fail(f) => Fail(f)
        case Got(rest, q) => Got([h] + rest, q)
  }

  datatype Verb = GET | HEAD | POST | PUT | DELETE | CONNECT | OPTIONS | TRACE | PATCH | UNKNOWN

  const VERBS: seq<(string, Verb)> := [
    ("GET", GET), ("POST", POST), ("PUT", PUT), ("DELETE", DELETE), ("HEAD", HEAD),
    ("OPTIONS", OPTIONS), ("PATCH", PATCH), ("CONNECT", CONNECT), ("TRACE", TRACE)]

  /** The verb spelt so, letter case included. */
  function VerbOf(text: seq<byte>, i: nat): Verb
    requires i <= |VERBS|
    decreases |VERBS| - i
  {
    if i == |VERBS| then UNKNOWN
    else if Ascii(VERBS[i].0) == text then VERBS[i].1
    else VerbOf(text, i + 1)
  }

  datatype Head = Head(verb: seq<byte>, url: seq<byte>, version: Version, headers: seq<Header>)

  function ParseHead(d: seq<byte>): (r: Step<Head>)
    ensures r.Got? ==> r.pos <= |d| && |r.value.headers| <= MAX_HEADERS
  {
    match SkipLines(d, 0, MAX_EMPTY_LINES)
    case More => More
    case Fail(f) => Fail(f)
    case Got(_, p0) =>
      match Word(d, p0, SP, Token)
      case More => More
      case Fail(f) => Fail(f)
      case Got(verb, p1) =>
        match Word(d, p1, SP, Target)
        case More => More
        case Fail(f) => Fail(f)
        case Got(url, p2) =>
          match ParseVersion(d, p2)
          case More => More
          case Fail(f) => Fail(f)
          case Got(version, p3) =>
            match ParseHeaders(d, p3, 0)
            case More => More
            case Fail(f) => Fail(f)
            case Got(headers, p4) => Got(Head(verb, url, version, headers), p4)
  }

  // ---- framing (section 6 of RFC 9112) ----

  function LowerOf(c: byte): byte { if 65 <= c <= 90 then c + 32 else c }

  predicate SameText(a: seq<byte>, lower: seq<byte>) {
    |a| == |lower| && forall i | 0 <= i < |a| :: LowerOf(a[i]) == lower[i]
  }

  predicate IsLength(h: Header) { SameText(h.name, Ascii("content-length")) }
  predicate IsCoding(h: Header) { SameText(h.name, Ascii("transfer-encoding")) }

  function LengthOf(v: seq<byte>): Option<nat> {
    if v == [] || |v| > MAX_LENGTH_DIGITS || !Digits(v) || Number(v) > MAX_LENGTH then None else Some(Number(v))
  }

  /** What a field must satisfy on its own, and next to one before it. */
  predicate FieldFrames(h: Header, version: Version) {
    && (IsLength(h) ==> LengthOf(h.value).Some?)
    && (!IsLength(h) && IsCoding(h) ==> SameText(h.value, Ascii("chunked")) && version.Http11?)
  }

  predicate PairFrames(g: Header, h: Header) {
    && (IsLength(g) && IsLength(h) ==> LengthOf(g.value) == LengthOf(h.value))
    && !(IsCoding(g) && IsCoding(h))
  }

  predicate FramesOk(hs: seq<Header>, n: nat, version: Version)
    requires n <= |hs|
  {
    && (forall i | 0 <= i < n :: FieldFrames(hs[i], version))
    && (forall i, j | 0 <= i < j < n :: PairFrames(hs[i], hs[j]))
  }

  /** The length every content-length field among the first n agrees on. */
  function DeclaredLength(hs: seq<Header>, n: nat): Option<nat>
    requires n <= |hs|
  {
    if n == 0 then None
    else if IsLength(hs[n - 1]) && LengthOf(hs[n - 1].value).Some? then LengthOf(hs[n - 1].value)
    else DeclaredLength(hs, n - 1)
  }

  predicate Chunked(hs: seq<Header>, n: nat)
    requires n <= |hs|
  {
    exists i | 0 <= i < n :: IsCoding(hs[i])
  }

  function Lookup(hs: seq<Header>, name: seq<byte>): seq<byte> {
    if hs == [] then [] else if SameText(hs[0].name, name) then hs[0].value else Lookup(hs[1..], name)
  }

  /** Both framings at once, or a faulty one, leave no framing at all. */
  predicate Framed(head: Head) {
    var hs := head.headers;
    FramesOk(hs, |hs|, head.version) && !(Chunked(hs, |hs|) && DeclaredLength(hs, |hs|).Some?)
  }

  predicate KeepAlive(head: Head) {
    var c := Lookup(head.headers, Ascii("connection"));
    SameText(c, Ascii("keep-alive")) || (head.version.Http11? && c == [])
  }

  // ---- the target ----

  function IndexOf(s: seq<byte>, c: byte, i: nat): (j: nat)
    requires i <= |s|
    ensures i <= j <= |s| && (forall k | i <= k < j :: s[k] != c) && (j < |s| ==> s[j] == c)
    decreases |s| - i
  {
    if i == |s| || s[i] == c then i else IndexOf(s, c, i + 1)
  }

  datatype Parts = Parts(path: seq<byte>, query: Option<seq<byte>>, fragment: Option<seq<byte>>)

  function UrlParts(url: seq<byte>): Parts {
    var q := IndexOf(url, 63, 0);
    if q < |url| then
      var f := IndexOf(url, 35, q);
      if f < |url| then Parts(url[..q], Some(url[q + 1..f]), Some(url[f + 1..])) else Parts(url[..q], Some(url[q + 1..]), None)
    else
      var f := IndexOf(url, 35, 0);
      if f < |url| then Parts(url[..f], None, Some(url[f + 1..])) else Parts(url, None, None)
  }

  // ---- the whole request ----

  /** body is None when the request carries none. */
  datatype Message = Message(head: Head, body: Option<seq<byte>>)

  function ParseBody(d: seq<byte>, pos: nat, head: Head): (r: Step<Message>)
    requires pos <= |d|
    ensures r.Got? ==> pos <= r.pos <= |d|
  {
    var hs := head.headers;
    if !Framed(head) then Fail(false)
    else if Chunked(hs, |hs|) then
      match Chunks(d[pos..], 0)
      case Incomplete => More
      case Malformed => Fail(false)
      case Complete(raw) => Got(Message(head, Some(d[pos..pos + raw])), pos + raw)
    else
      var n := if DeclaredLength(hs, |hs|).Some? then DeclaredLength(hs, |hs|).value else 0;
      if n == 0 then Got(Message(head, None), pos)
      else if |d| - pos < n then More
      else Got(Message(head, Some(d[pos..pos + n])), pos + n)
  }

  function Parse(d: seq<byte>): (r: Step<Message>)
    ensures r.Got? ==> r.pos <= |d|
  {
    match ParseHead(d)
    case More => More
    case Fail(f) => Fail(f)
    case Got(head, pos) => ParseBody(d, pos, head)
  }

  // ---- more input changes nothing but "more" ----

  lemma {:induction false} RunStable(d: seq<byte>, x: seq<byte>, pos: nat, stop: byte, k: Class)
    ensures !Run(d, pos, stop, k).More? ==> Run(d + x, pos, stop, k) == Run(d, pos, stop, k)
    decreases if pos < |d| then |d| - pos else 0
  {
    if pos < |d| {
      RunStable(d, x, pos + 1, stop, k);
    }
  }

  /** If the rest of the line is there, blanks are skipped alike. */
  lemma {:induction false} BlankStable(d: seq<byte>, x: seq<byte>, pos: nat)
    requires pos <= |d| && SkipBlank(d, pos) < |d|
    ensures SkipBlank(d + x, pos) == SkipBlank(d, pos)
    decreases |d| - pos
  {
    if d[pos] == SP || d[pos] == TAB {
      BlankStable(d, x, pos + 1);
    }
  }

  lemma WordStable(d: seq<byte>, x: seq<byte>, pos: nat, stop: byte, k: Class)
    ensures !Word(d, pos, stop, k).More? ==> Word(d + x, pos, stop, k) == Word(d, pos, stop, k)
  {
    RunStable(d, x, pos, stop, k);
    var r := Run(d, pos, stop, k);
    if r.Got? {
      assert (d + x)[pos..r.pos] == d[pos..r.pos];
    }
  }

  lemma {:induction false} LinesStable(d: seq<byte>, x: seq<byte>, pos: nat, k: nat)
    requires pos <= |d|
    ensures var r := SkipLines(d, pos, k);
            !r.More? && !(r.Got? && r.pos == |d|) ==> SkipLines(d + x, pos, k) == r
    decreases k
  {
    if k > 0 && pos < |d| && d[pos] == CR && LineBreak(d, pos).Got? {
      LinesStable(d, x, pos + 2, k - 1);
    }
  }

  lemma VersionStable(d: seq<byte>, x: seq<byte>, pos: nat)
    requires pos <= |d| && !ParseVersion(d, pos).More?
    ensures ParseVersion(d + x, pos) == ParseVersion(d, pos)
  {
    hide Ascii;
    var e, p := d + x, Ascii("HTTP/");
    var seen := if |d| - pos < 5 then |d| - pos else 5;
    var more := if |e| - pos < 5 then |e| - pos else 5;
    SliceStable(d, x, pos, seen);
    StartsDiffer(e[pos..pos + more], p[..more], seen);
    assert p[..more][..seen] == p[..seen] && e[pos..pos + more][..seen] == e[pos..pos + seen];
    if pos + 10 <= |d| {
      SliceStable(d, x, pos, 10);
    }
  }

  lemma SliceStable(d: seq<byte>, x: seq<byte>, i: nat, n: nat)
    requires i + n <= |d|
    ensures (d + x)[i..i + n] == d[i..i + n]
  {
  }

  /** What differs at its start differs. */
  lemma StartsDiffer(s: seq<byte>, t: seq<byte>, n: nat)
    requires n <= |s| && n <= |t|
    ensures s[..n] != t[..n] ==> s != t
  {
  }

  lemma ValueStable(d: seq<byte>, x: seq<byte>, q: nat)
    requires q <= |d| && !ParseValue(d, q).More?
    ensures ParseValue(d + x, q) == ParseValue(d, q)
  {
    RunStable(d, x, q, CR, Value);
    var r := Run(d, q, CR, Value);
    if r.Got? {
      assert (d + x)[q..r.pos] == d[q..r.pos];
    }
  }

  lemma HeaderStable(d: seq<byte>, x: seq<byte>, pos: nat)
    requires !ParseHeader(d, pos).More?
    ensures ParseHeader(d + x, pos) == ParseHeader(d, pos)
  {
    hide Word, ParseValue;
    WordStable(d, x, pos, COLON, Token);
    var w := Word(d, pos, COLON, Token);
    if w.Got? {
      var q := SkipBlank(d, w.pos);
      assert q < |d| by { NoValueAtEnd(d, q); }
      BlankStable(d, x, w.pos);
      ValueStable(d, x, q);
    }
  }

  lemma NoValueAtEnd(d: seq<byte>, q: nat)
    requires q <= |d| && !ParseValue(d, q).More?
    ensures q < |d|
  {
  }

  lemma {:induction false} HeadersStable(d: seq<byte>, x: seq<byte>, pos: nat, n: nat)
    requires pos <= |d| && !ParseHeaders(d, pos, n).More?
    ensures ParseHeaders(d + x, pos, n) == ParseHeaders(d, pos, n)
    decreases |d| - pos
  {
    hide ParseHeader;
    if d[pos] != CR && n < MAX_HEADERS {
      HeaderStable(d, x, pos);
      var h := ParseHeader(d, pos);
      if h.Got? {
        HeadersStable(d, x, h.pos, n + 1);
      }
    }
  }

  lemma WordNeedsInput(d: seq<byte>, pos: nat, stop: byte, k: Class)
    requires pos >= |d|
    ensures Word(d, pos, stop, k).More?
  {
  }

  lemma HeadStable(d: seq<byte>, x: seq<byte>)
    requires !ParseHead(d).More?
    ensures ParseHead(d + x) == ParseHead(d)
  {
    hide Word, SkipLines, ParseVersion, ParseHeaders;
    LinesStable(d, x, 0, MAX_EMPTY_LINES);
    var l := SkipLines(d, 0, MAX_EMPTY_LINES);
    if l.Got? {
      WordNeedsInput(d, |d|, SP, Token);
      WordStable(d, x, l.pos, SP, Token);
      var v := Word(d, l.pos, SP, Token);
      if v.Got? {
        WordStable(d, x, v.pos, SP, Target);
        var u := Word(d, v.pos, SP, Target);
        if u.Got? {
          VersionStable(d, x, u.pos);
          var w := ParseVersion(d, u.pos);
          if w.Got? {
            HeadersStable(d, x, w.pos, 0);
          }
        }
      }
    }
  }

  /** A verdict is final: only "more" can change when more arrives. */
  lemma ParseStable(d: seq<byte>, x: seq<byte>)
    requires !Parse(d).More?
    ensures Parse(d + x) == Parse(d)
  {
    hide ParseHead, Chunks, Framed, Chunked, DeclaredLength;
    HeadStable(d, x);
    var h := ParseHead(d);
    if h.Got? {
      var hs := h.value.headers;
      if Framed(h.value) && Chunked(hs, |hs|) {
        assert (d + x)[h.pos..] == d[h.pos..] + x;
        ScanStable(d[h.pos..], x, 0);
        var s := Chunks(d[h.pos..], 0);
        if s.Complete? {
          assert (d + x)[h.pos..h.pos + s.raw] == d[h.pos..h.pos + s.raw];
        }
      } else if Framed(h.value) && DeclaredLength(hs, |hs|).Some? {
        var n := DeclaredLength(hs, |hs|).value;
        if h.pos + n <= |d| {
          assert (d + x)[h.pos..h.pos + n] == d[h.pos..h.pos + n];
        }
      }
    }
  }
}
