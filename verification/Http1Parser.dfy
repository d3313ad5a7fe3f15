/** HTTP1Parser over its request object: restart on every read, fields filled as the input allows. */
module Http1Parser {
  import opened Bytes
  import opened Decimals
  import opened Http1Chunked
  import opened Http1Spec

  datatype Code = Ok | Again | Error

  function CodeOf<T>(s: Step<T>): Code {
    match s
    case More => Again
    case Fail(_) => Error
    case Got(_, _) => Ok
  }

  // ---- fields that a parse leaves alone unless the request has them ----

  datatype Sticky = Sticky(query: seq<byte>, fragment: seq<byte>, protocol: seq<byte>, body: seq<byte>)

  const FRESH: Sticky := Sticky([], [], [], [])

  function Set(o: Option<seq<byte>>, was: seq<byte>): seq<byte> { if o.Some? then o.value else was }

  function Upgrade(head: Head): Option<seq<byte>> {
    var p := Lookup(head.headers, Ascii("upgrade"));
    if p == [] then None else Some(p)
  }

  /** After the head: the target's parts, and the upgrade field once the framing has passed. */
  function AfterHead(s: Sticky, head: Head): Sticky {
    var u := UrlParts(head.url);
    var s1 := s.(query := Set(u.query, s.query), fragment := Set(u.fragment, s.fragment));
    if Framed(head) then s1.(protocol := Set(Upgrade(head), s.protocol)) else s1
  }

  /** What an attempt on d makes of those fields. */
  function AfterParse(s: Sticky, d: seq<byte>): Sticky {
    match ParseHead(d)
    case Got(head, pos) =>
      var s1 := AfterHead(s, head);
      (match ParseBody(d, pos, head)
       case Got(m, _) => s1.(body := Set(m.body, s1.body))
       case _ => s1)
    case _ => s
  }

  /** Whatever s holds is what d will put there. */
  ghost predicate Anticipates(s: Sticky, d: seq<byte>) {
    && s.body == []
    && (s.query != [] || s.fragment != [] || s.protocol != [] ==> ParseHead(d).Got?)
    && (ParseHead(d).Got? ==>
          var head := ParseHead(d).value;
          var u := UrlParts(head.url);
          && (s.query != [] ==> u.query == Some(s.query))
          && (s.fragment != [] ==> u.fragment == Some(s.fragment))
          && (s.protocol != [] ==> Framed(head) && Upgrade(head) == Some(s.protocol)))
  }

  lemma AttemptAnticipates(s: Sticky, p: seq<byte>, d: seq<byte>)
    requires Anticipates(s, d) && p <= d && Parse(p).More?
    ensures Anticipates(AfterParse(s, p), d)
  {
    hide ParseHead, ParseBody, UrlParts, Framed, Lookup;
    assert d == p + d[|p|..];
    if ParseHead(p).Got? {
      HeadStable(p, d[|p|..]);
    }
  }

  lemma AnticipatedIsFresh(s: Sticky, d: seq<byte>)
    requires Anticipates(s, d)
    ensures AfterParse(s, d) == AfterParse(FRESH, d)
  {
    hide ParseHead, ParseBody, UrlParts, Framed, Lookup;
  }

  function Attempts(s: Sticky, ds: seq<seq<byte>>): Sticky {
    if ds == [] then s else AfterParse(Attempts(s, ds[..|ds| - 1]), ds[|ds| - 1])
  }

  /** Retrying one object on a growing buffer ends as a single parse of a new one would. */
  lemma {:induction false} RetryIsFresh(attempts: seq<seq<byte>>, d: seq<byte>)
    requires forall i | 0 <= i < |attempts| :: attempts[i] <= d && Parse(attempts[i]).More?
    ensures Anticipates(Attempts(FRESH, attempts), d)
    ensures AfterParse(Attempts(FRESH, attempts), d) == AfterParse(FRESH, d)
  {
    hide Anticipates, AfterParse, Parse;
    if attempts == [] {
      FreshAnticipates(d);
    } else {
      var n := |attempts| - 1;
      RetryIsFresh(attempts[..n], d);
      AttemptAnticipates(Attempts(FRESH, attempts[..n]), attempts[n], d);
    }
    AnticipatedIsFresh(Attempts(FRESH, attempts), d);
  }

  lemma FreshAnticipates(d: seq<byte>)
    ensures Anticipates(FRESH, d)
  {
  }

  /** An object used before serves the next request as well as a new one exactly when the new request sets all it held. */
  lemma ReuseIsFreshExactly(s: Sticky, d: seq<byte>)
    requires Parse(d).Got?
    ensures var m := Parse(d).value;
            var u := UrlParts(m.head.url);
            AfterParse(s, d) == AfterParse(FRESH, d) <==>
              && (s.query == [] || u.query.Some?)
              && (s.fragment == [] || u.fragment.Some?)
              && (s.protocol == [] || Upgrade(m.head).Some?)
              && (s.body == [] || m.body.Some?)
  {
    hide ParseHead, UrlParts, Framed, Lookup, Chunks, DeclaredLength, Chunked;
  }

  /** "A / HTTP/1.1" and an empty line. */
  const BARE: seq<byte> := [65, 32, 47, 32] + HTTP11 + [CR, LF]

  lemma BareParses()
    ensures Parse(BARE) == Got(Message(Head([65], [47], Http11, []), None), 16)
  {
    var d := BARE;
    assert |d| == 16 && d[0] == 65 && d[1] == 32 && d[2] == 47 && d[3] == 32 && d[14] == CR && d[15] == LF;
    assert Run(d, 1, SP, Token) == Got((), 1) && Run(d, 0, SP, Token) == Got((), 1);
    assert d[0..1] == [65];
    assert Run(d, 3, SP, Target) == Got((), 3) && Run(d, 2, SP, Target) == Got((), 3);
    assert d[2..3] == [47];
    assert d[4..14] == HTTP11 && d[4..9] == HTTP11[..5] == Ascii("HTTP/");
    assert ParseVersion(d, 4) == Got(Http11, 14);
    assert ParseHeaders(d, 14, 0) == Got([], 16);
    assert ParseHead(d) == Got(Head([65], [47], Http11, []), 16);
  }

  /** A request without a body, read into an object that held one, keeps the old body. */
  lemma StaleBody(s: Sticky)
    requires s.body != []
    ensures Parse(BARE).Got? && Parse(BARE).value.body == None && AfterParse(s, BARE).body == s.body
  {
    BareParses();
    hide ParseHead, UrlParts, Lookup;
  }

  // ---- the objects ----

  class Request {
    var verb: seq<byte>
    var kind: Verb
    var url: seq<byte>
    var version: Version
    var headers: array<Header>
    var count: nat
    var path: seq<byte>
    var contentLength: nat
    var hasLength: bool
    var chunked: bool
    var keepAlive: bool
    var upgrade: bool
    var query: seq<byte>
    var fragment: seq<byte>
    var protocol: seq<byte>
    var body: seq<byte>

    constructor ()
      ensures fresh(headers) && headers.Length == MAX_HEADERS && Kept() == FRESH
    {
      kind := UNKNOWN;
      verb, url, path, query, fragment, protocol, body := [], [], [], [], [], [], [];
      version, count, contentLength, hasLength, chunked, keepAlive, upgrade := Http11, 0, 0, false, false, false, false;
      headers := new Header[MAX_HEADERS](_ => Header([], []));
    }

    ghost function Kept(): Sticky
      reads this
    {
      Sticky(query, fragment, protocol, body)
    }

    ghost predicate Holds(head: Head)
      reads this`verb, this`kind, this`url, this`version, this`count, this`headers, headers
    {
      && verb == head.verb && kind == VerbOf(verb, 0) && url == head.url && version == head.version
      && count <= headers.Length && headers[..count] == head.headers
    }

    /** The fields derived from the head. */
    ghost predicate Derived(head: Head)
      reads this`path, this`hasLength, this`contentLength, this`chunked, this`keepAlive, this`upgrade
    {
      var hs := head.headers;
      && path == UrlParts(head.url).path
      && hasLength == DeclaredLength(hs, |hs|).Some? && (hasLength ==> contentLength == DeclaredLength(hs, |hs|).value)
      && chunked == Chunked(hs, |hs|)
      && keepAlive == KeepAlive(head) && upgrade == Upgrade(head).Some?
    }
  }

  class Parser {
    var pos: nat
    var error: bool
    var notHttp: bool

    constructor ()
      ensures pos == 0 && !error && !notHttp
    {
      pos, error, notHttp := 0, false, false;
    }

    /** Allowed characters up to a stop. */
    method Advance(data: seq<byte>, stop: byte, k: Class) returns (rc: Code)
      requires pos <= |data| && !error
      modifies this`pos, this`error
      ensures rc == CodeOf(Run(data, old(pos), stop, k)) && error == rc.Error?
      ensures rc.Ok? ==> pos == Run(data, old(pos), stop, k).pos
      ensures rc.Error? ==> !Run(data, old(pos), stop, k).foreign
    {
      while pos < |data| && data[pos] != stop
        invariant old(pos) <= pos <= |data| && !error && Run(data, old(pos), stop, k) == Run(data, pos, stop, k)
      {
        if !Allowed(k, data[pos]) {
          error := true;
          return Error;
        }
        pos := pos + 1;
      }
      rc := if pos >= |data| then Again else Ok;
    }

    /** A non-empty run; its stop is skipped. */
    method ReadWord(data: seq<byte>, stop: byte, k: Class) returns (rc: Code, word: seq<byte>)
      requires pos <= |data| && !error
      modifies this`pos, this`error
      ensures rc == CodeOf(Word(data, old(pos), stop, k)) && error == rc.Error?
      ensures rc.Ok? ==> Word(data, old(pos), stop, k) == Got(word, pos)
      ensures rc.Error? ==> !Word(data, old(pos), stop, k).foreign
    {
      var mark := pos;
      word := [];
      rc := Advance(data, stop, k);
      if !rc.Ok? {
        return;
      }
      if pos == mark {
        error := true;
        return Error, [];
      }
      word := data[mark..pos];
      pos := pos + 1;
    }

    /** A CR has been seen; its LF is awaited. */
    method ReadLineBreak(data: seq<byte>) returns (rc: Code)
      requires pos < |data| && data[pos] == CR && !error
      modifies this`pos, this`error
      ensures rc == CodeOf(LineBreak(data, old(pos))) && error == rc.Error? && (rc.Ok? ==> pos == old(pos) + 2)
      ensures !rc.Ok? ==> pos == old(pos)
    {
      if pos + 1 >= |data| {
        return Again;
      }
      if data[pos + 1] != LF {
        error := true;
        return Error;
      }
      pos := pos + 2;
      rc := Ok;
    }

    method SkipEmptyLines(data: seq<byte>) returns (rc: Code)
      requires pos == 0 && !error
      modifies this`pos, this`error
      ensures rc == CodeOf(SkipLines(data, 0, MAX_EMPTY_LINES)) && error == rc.Error?
      ensures rc.Ok? ==> pos == SkipLines(data, 0, MAX_EMPTY_LINES).pos
      ensures rc.Error? ==> !SkipLines(data, 0, MAX_EMPTY_LINES).foreign
    {
      hide LineBreak;
      var skipped := 0;
      while skipped < MAX_EMPTY_LINES && pos < |data| && data[pos] == CR
        invariant 0 <= skipped <= MAX_EMPTY_LINES && pos <= |data| && !error
        invariant SkipLines(data, 0, MAX_EMPTY_LINES) == SkipLines(data, pos, MAX_EMPTY_LINES - skipped)
      {
        BreakIsLocal(data, pos);
        rc := ReadLineBreak(data);
        if !rc.Ok? {
          return;
        }
        skipped := skipped + 1;
      }
      rc := Ok;
    }

    method ReadVersion(data: seq<byte>) returns (rc: Code, version: Version)
      requires pos <= |data| && !error && !notHttp
      modifies this
      ensures rc == CodeOf(ParseVersion(data, old(pos))) && error == rc.Error?
      ensures rc.Ok? ==> ParseVersion(data, old(pos)) == Got(version, pos)
      ensures notHttp == (rc.Error? && ParseVersion(data, old(pos)).foreign)
    {
      version := Http11;
      var seen := if |data| - pos < 5 then |data| - pos else 5;
      if data[pos..pos + seen] != Ascii("HTTP/")[..seen] {
        notHttp, error := true, true;
        return Error, version;
      }
      if pos + 10 > |data| {
        return Again, version;
      }
      if data[pos..pos + 10] == HTTP11 {
        pos := pos + 10;
      } else if data[pos..pos + 10] == HTTP10 {
        version, pos := Http10, pos + 10;
      } else {
        error := true;
        return Error, version;
      }
      rc := Ok;
    }

    method ReadValue(data: seq<byte>) returns (rc: Code, value: seq<byte>)
      requires pos <= |data| && !error
      modifies this`pos, this`error
      ensures rc == CodeOf(ParseValue(data, old(pos))) && error == rc.Error?
      ensures rc.Ok? ==> ParseValue(data, old(pos)) == Got(value, pos)
      ensures rc.Error? ==> !ParseValue(data, old(pos)).foreign
    {
      var mark := pos;
      value := [];
      rc := Advance(data, CR, Value);
      if !rc.Ok? {
        return;
      }
      var end := pos;
      BreakIsLocal(data, pos);
      rc := ReadLineBreak(data);
      if !rc.Ok? {
        return;
      }
      ghost var stop := end;
      while end > mark && (data[end - 1] == SP || data[end - 1] == TAB || data[end - 1] == CR || data[end - 1] == LF)
        invariant mark <= end <= stop && Trim(data[mark..end]) == Trim(data[mark..stop])
      {
        assert data[mark..end][..end - mark - 1] == data[mark..end - 1];
        end := end - 1;
      }
      value := data[mark..end];
    }

    method ReadHeader(data: seq<byte>) returns (rc: Code, h: Header)
      requires pos <= |data| && !error
      modifies this`pos, this`error
      ensures rc == CodeOf(ParseHeader(data, old(pos))) && error == rc.Error?
      ensures rc.Ok? ==> ParseHeader(data, old(pos)) == Got(h, pos)
      ensures rc.Error? ==> !ParseHeader(data, old(pos)).foreign
    {
      hide Word, ParseValue;
      h := Header([], []);
      var name, value;
      rc, name := ReadWord(data, COLON, Token);
      if !rc.Ok? {
        return;
      }
      ghost var after := pos;
      while pos < |data| && (data[pos] == SP || data[pos] == TAB)
        invariant after <= pos <= |data| && !error && SkipBlank(data, after) == SkipBlank(data, pos)
      {
        pos := pos + 1;
      }
      rc, value := ReadValue(data);
      if rc.Ok? {
        h := Header(name, value);
      }
    }

    /** Fields up to the empty line, appended to the request. */
    method ReadHeaders(data: seq<byte>, req: Request) returns (rc: Code)
      requires pos <= |data| && !error && req.count == 0 && req.headers.Length == MAX_HEADERS
      modifies this`pos, this`error, req`count, req.headers
      ensures req.count <= MAX_HEADERS && rc == CodeOf(ParseHeaders(data, old(pos), 0)) && error == rc.Error?
      ensures rc.Ok? ==> ParseHeaders(data, old(pos), 0) == Got(req.headers[..req.count], pos)
      ensures rc.Error? ==> !ParseHeaders(data, old(pos), 0).foreign
    {
      hide ParseHeader, ParseHeaders;
      ghost var start := pos;
      JoinNothing(ParseHeaders(data, start, 0));
      while pos < |data|
        invariant pos <= |data| && !error && req.count <= MAX_HEADERS && req.headers.Length == MAX_HEADERS
        invariant ParseHeaders(data, start, 0) == Joined(req.headers[..req.count], ParseHeaders(data, pos, req.count))
        decreases |data| - pos
      {
        HeadersStep(data, pos, req.count, req.headers[..req.count]);
        if data[pos] == CR {
          BreakIsLocal(data, pos);
          rc := ReadLineBreak(data);
          return;
        }
        if req.count >= MAX_HEADERS {
          error := true;
          return Error;
        }
        var h;
        ghost var done := req.headers[..req.count];
        rc, h := ReadHeader(data);
        if !rc.Ok? {
          return;
        }
        req.headers[req.count] := h;
        req.count := req.count + 1;
        assert req.headers[..req.count] == done + [h];
      }
      HeadersEnd(data, pos, req.count);
      rc := Again;
    }

    /** 1*DIGIT, of bounded length and value. */
    static method ReadLength(v: seq<byte>) returns (r: Option<nat>)
      ensures r == LengthOf(v)
    {
      if |v| == 0 || |v| > MAX_LENGTH_DIGITS {
        return None;
      }
      var n, i := 0, 0;
      while i < |v|
        invariant 0 <= i <= |v| && Digits(v[..i]) && n == Number(v[..i])
      {
        if v[i] < 48 || v[i] > 57 {
          return None;
        }
        assert v[..i + 1][..i] == v[..i];
        var digit: int := v[i];
        n := n * 10 + (digit - 48);
        i := i + 1;
      }
      assert v[..i] == v;
      r := if n > MAX_LENGTH then None else Some(n);
    }

    static method GetHeader(headers: array<Header>, count: nat, name: seq<byte>) returns (value: seq<byte>)
      requires count <= headers.Length
      ensures value == Lookup(headers[..count], name)
    {
      ghost var hs := headers[..count];
      var i := 0;
      assert hs[0..] == hs;
      while i < count
        invariant 0 <= i <= count && Lookup(hs, name) == Lookup(hs[i..], name)
      {
        assert hs[i..][0] == hs[i] && hs[i..][1..] == hs[i + 1..];
        if SameText(headers[i].name, name) {
          return headers[i].value;
        }
        i := i + 1;
      }
      value := [];
    }

    /** Content-Length and Transfer-Encoding. */
    static method ReadFraming(req: Request) returns (ok: bool)
      requires req.count <= req.headers.Length && !req.hasLength && !req.chunked
      modifies req`contentLength, req`hasLength, req`chunked
      ensures var hs := req.headers[..req.count];
              && ok == Framed(Head([], [], req.version, hs))
              && (ok ==> req.hasLength == DeclaredLength(hs, |hs|).Some?
                         && (req.hasLength ==> req.contentLength == DeclaredLength(hs, |hs|).value)
                         && req.chunked == Chunked(hs, |hs|))
    {
      ghost var hs := req.headers[..req.count];
      hide SameText, LengthOf;
      var codings, i := 0, 0;
      while i < req.count
        invariant 0 <= i <= req.count && FramesOk(hs, i, req.version)
        invariant req.hasLength == DeclaredLength(hs, i).Some? && (req.hasLength ==> req.contentLength == DeclaredLength(hs, i).value)
        invariant req.chunked == Chunked(hs, i) && codings == (if req.chunked then 1 else 0)
      {
        var h := req.headers[i];
        assert h == hs[i];
        FramesStep(hs, i, req.version);
        NotBoth(h);
        if IsLength(h) {
          var n := ReadLength(h.value);
          if n.None? || (req.hasLength && n.value != req.contentLength) {
            return false;
          }
          req.contentLength, req.hasLength := n.value, true;
        } else if IsCoding(h) {
          codings := codings + 1;
          if codings > 1 || !SameText(h.value, Ascii("chunked")) || req.version != Http11 {
            return false;
          }
          req.chunked := true;
        }
        i := i + 1;
      }
      ok := !(req.chunked && req.hasLength);
    }

    /** Framing, then what Connection and Upgrade say. */
    static method ExtractFraming(req: Request) returns (ok: bool)
      requires req.count <= req.headers.Length && !req.hasLength && !req.chunked && !req.upgrade
      modifies req`contentLength, req`hasLength, req`chunked, req`keepAlive, req`upgrade, req`protocol
      ensures var head := Head([], [], req.version, req.headers[..req.count]);
              var hs := head.headers;
              && ok == Framed(head)
              && (ok ==> req.hasLength == DeclaredLength(hs, |hs|).Some?
                         && (req.hasLength ==> req.contentLength == DeclaredLength(hs, |hs|).value)
                         && req.chunked == Chunked(hs, |hs|)
                         && req.keepAlive == KeepAlive(head) && req.upgrade == Upgrade(head).Some?)
              && req.protocol == if ok then Set(Upgrade(head), old(req.protocol)) else old(req.protocol)
    {
      hide Lookup, SameText, Chunked, DeclaredLength, FramesOk;
      ok := ReadFraming(req);
      if !ok {
        return;
      }
      var connection := GetHeader(req.headers, req.count, Ascii("connection"));
      var asked := SameText(connection, Ascii("keep-alive"));
      req.keepAlive := if req.version == Http11 then connection == [] || asked else asked;
      var upgrade := GetHeader(req.headers, req.count, Ascii("upgrade"));
      if upgrade != [] {
        req.upgrade := true;
        req.protocol := upgrade;
      }
    }

    static method Find(s: seq<byte>, c: byte, from: nat) returns (j: nat)
      requires from <= |s|
      ensures j == IndexOf(s, c, from)
    {
      j := from;
      while j < |s| && s[j] != c
        invariant from <= j <= |s| && IndexOf(s, c, from) == IndexOf(s, c, j)
      {
        j := j + 1;
      }
    }

    static method SplitUrl(req: Request)
      modifies req`path, req`query, req`fragment
      ensures var u := UrlParts(req.url);
              req.path == u.path && req.query == Set(u.query, old(req.query)) && req.fragment == Set(u.fragment, old(req.fragment))
    {
      var url := req.url;
      var q := Find(url, 63, 0);
      if q < |url| {
        req.path := url[..q];
        var f := Find(url, 35, q);
        if f < |url| {
          req.query, req.fragment := url[q + 1..f], url[f + 1..];
        } else {
          req.query := url[q + 1..];
        }
      } else {
        var f := Find(url, 35, 0);
        if f < |url| {
          req.path, req.fragment := url[..f], url[f + 1..];
        } else {
          req.path := url;
        }
      }
    }

    /** Everything up to the empty line. */
    method ReadHead(data: seq<byte>, req: Request) returns (rc: Code)
      requires pos == 0 && !error && !notHttp && req.count == 0 && req.headers.Length == MAX_HEADERS
      modifies this, req`verb, req`kind, req`url, req`version, req`count, req.headers
      ensures rc == CodeOf(ParseHead(data)) && error == rc.Error?
      ensures notHttp == (rc.Error? && ParseHead(data).foreign)
      ensures rc.Ok? ==> pos == ParseHead(data).pos && req.Holds(ParseHead(data).value)
    {
      hide SkipLines, Word, ParseVersion, ParseHeaders, VerbOf;
      var word, version;
      rc := SkipEmptyLines(data);
      if !rc.Ok? {
        return;
      }
      rc, word := ReadWord(data, SP, Token);
      if !rc.Ok? {
        return;
      }
      req.verb, req.kind := word, VerbOf(word, 0);
      rc, word := ReadWord(data, SP, Target);
      if !rc.Ok? {
        return;
      }
      req.url := word;
      rc, version := ReadVersion(data);
      if !rc.Ok? {
        return;
      }
      req.version := version;
      rc := ReadHeaders(data, req);
    }

    /** The framed body; a chunked one is handed over undecoded. */
    method ReadBody(data: seq<byte>, req: Request, ghost head: Head) returns (rc: Code)
      requires pos <= |data| && !error && Framed(head) && req.Derived(head)
      modifies this, req`body
      ensures rc == CodeOf(ParseBody(data, old(pos), head)) && error == rc.Error? && notHttp == old(notHttp)
      ensures rc.Error? ==> !ParseBody(data, old(pos), head).foreign
      ensures rc.Ok? ==> pos == ParseBody(data, old(pos), head).pos
      ensures req.body == match ParseBody(data, old(pos), head)
                          case Got(m, _) => Set(m.body, old(req.body))
                          case _ => old(req.body)
    {
      hide Chunks, Framed, Chunked, DeclaredLength, UrlParts, KeepAlive, Upgrade;
      if req.chunked {
        var scan := ScanChunked(data[pos..]);
        match scan {
          case Incomplete => return Again;
          case Malformed =>
            error := true;
            return Error;
          case Complete(raw) =>
            req.body := data[pos..pos + raw];
            pos := pos + raw;
        }
      } else if req.hasLength && req.contentLength > 0 {
        if |data| - pos < req.contentLength {
          return Again;
        }
        req.body := data[pos..pos + req.contentLength];
        pos := pos + req.contentLength;
      }
      rc := Ok;
    }

    /** What follows from the head alone. */
    static method ReadDerived(req: Request, ghost head: Head) returns (ok: bool)
      requires req.Holds(head) && !req.hasLength && !req.chunked && !req.upgrade
      modifies req`path, req`query, req`fragment, req`contentLength, req`hasLength, req`chunked, req`keepAlive, req`upgrade, req`protocol
      ensures ok == Framed(head) && (ok ==> req.Derived(head))
      ensures req.Kept() == AfterHead(old(req.Kept()), head)
    {
      hide UrlParts, Framed, KeepAlive, Upgrade, Chunked, DeclaredLength;
      OnlyFields(head);
      SplitUrl(req);
      ok := ExtractFraming(req);
    }

    method Parse(data: seq<byte>, req: Request) returns (rc: Code, consumed: nat)
      requires req.headers.Length == MAX_HEADERS
      modifies this, req, req.headers
      ensures req.headers == old(req.headers)
      ensures rc == CodeOf(Http1Spec.Parse(data)) && (rc.Error? ==> notHttp == Http1Spec.Parse(data).foreign)
      ensures rc.Ok? ==> var r := Http1Spec.Parse(data); consumed == r.pos && req.Holds(r.value.head) && req.Derived(r.value.head)
      ensures req.Kept() == AfterParse(old(req.Kept()), data)
    {
      hide ParseHead, ParseBody, Framed, AfterHead, Set, Request.Holds, Request.Derived, Http1Spec.Parse, AfterParse;
      ParseIs(old(req.Kept()), data);
      consumed := 0;
      pos, error, notHttp := 0, false, false;
      req.count, req.contentLength, req.hasLength, req.chunked, req.upgrade := 0, 0, false, false, false;
      rc := ReadHead(data, req);
      if !rc.Ok? {
        return;
      }
      ghost var head := ParseHead(data).value;
      var ok := ReadDerived(req, head);
      UnframedFails(data, pos, head);
      if !ok {
        error := true;
        return Error, 0;
      }
      rc := ReadBody(data, req, head);
      if rc.Ok? {
        BodyOfHead(data, ParseHead(data).pos, head);
        consumed := pos;
      }
    }
  }

  /** Framing and connection handling look at the version and the fields only. */
  lemma OnlyFields(head: Head)
    ensures var bare := Head([], [], head.version, head.headers);
            Framed(bare) == Framed(head) && KeepAlive(bare) == KeepAlive(head) && Upgrade(bare) == Upgrade(head)
  {
  }

  /** The parse and what it leaves behind, by the outcome of the head. */
  lemma ParseIs(s: Sticky, d: seq<byte>)
    ensures match ParseHead(d)
            case More => Parse(d) == More && AfterParse(s, d) == s
            case Fail(f) => Parse(d) == Fail(f) && AfterParse(s, d) == s
            case Got(head, pos) =>
              var s1 := AfterHead(s, head);
              && Parse(d) == ParseBody(d, pos, head)
              && AfterParse(s, d) == match ParseBody(d, pos, head)
                                     case Got(m, _) => s1.(body := Set(m.body, s1.body))
                                     case _ => s1
  {
    hide ParseHead, ParseBody, AfterHead, Set;
  }

  lemma UnframedFails(d: seq<byte>, pos: nat, head: Head)
    requires pos <= |d|
    ensures !Framed(head) ==> ParseBody(d, pos, head) == Fail(false)
  {
  }

  lemma BodyOfHead(d: seq<byte>, pos: nat, head: Head)
    requires pos <= |d| && ParseBody(d, pos, head).Got?
    ensures ParseBody(d, pos, head).value.head == head
  {
  }

  function Joined(done: seq<Header>, r: Step<seq<Header>>): Step<seq<Header>> {
    match r
    case Got(rest, q) => Got(done + rest, q)
    case _ => r
  }

  lemma JoinNothing(r: Step<seq<Header>>)
    ensures Joined([], r) == r
  {
    if r.Got? {
      assert [] + r.value == r.value;
    }
  }

  lemma HeadersStep(d: seq<byte>, pos: nat, n: nat, done: seq<Header>)
    requires pos < |d|
    ensures var all := Joined(done, ParseHeaders(d, pos, n));
            if d[pos] == CR then
              (match LineBreak(d, pos) case More => all == More case Fail(f) => all == Fail(f) case Got(_, p) => all == Got(done, p))
            else if n >= MAX_HEADERS then all == Fail(false)
            else
              (match ParseHeader(d, pos)
               case More => all == More
               case Fail(f) => all == Fail(f)
               case Got(h, p) => all == Joined(done + [h], ParseHeaders(d, p, n + 1)))
  {
    hide ParseHeader, LineBreak;
    assert done + [] == done;
    if d[pos] != CR && n < MAX_HEADERS && ParseHeader(d, pos).Got? {
      var h := ParseHeader(d, pos);
      var r := ParseHeaders(d, h.pos, n + 1);
      if r.Got? {
        assert done + ([h.value] + r.value) == (done + [h.value]) + r.value;
      }
    }
  }

  lemma HeadersEnd(d: seq<byte>, pos: nat, n: nat)
    requires pos == |d|
    ensures ParseHeaders(d, pos, n) == More
  {
  }

  /** How one field more bears on the framing. */
  lemma FramesStep(hs: seq<Header>, i: nat, version: Version)
    requires i < |hs| && FramesOk(hs, i, version)
    ensures FramesOk(hs, i + 1, version) <==>
              && FieldFrames(hs[i], version)
              && (IsLength(hs[i]) && DeclaredLength(hs, i).Some? ==> LengthOf(hs[i].value) == DeclaredLength(hs, i))
              && !(IsCoding(hs[i]) && Chunked(hs, i))
    ensures !FramesOk(hs, i + 1, version) ==> !FramesOk(hs, |hs|, version)
    ensures Chunked(hs, i + 1) <==> Chunked(hs, i) || IsCoding(hs[i])
  {
    hide SameText, LengthOf;
    LengthAgrees(hs, i, version);
  }

  lemma {:induction false} LengthAgrees(hs: seq<Header>, i: nat, version: Version)
    requires i <= |hs| && FramesOk(hs, i, version)
    ensures DeclaredLength(hs, i).Some? <==> exists k | 0 <= k < i :: IsLength(hs[k])
    ensures forall k | 0 <= k < i && IsLength(hs[k]) :: LengthOf(hs[k].value) == DeclaredLength(hs, i)
  {
    hide SameText, LengthOf;
    if i > 0 {
      LengthAgrees(hs, i - 1, version);
    }
  }

  lemma NotBoth(h: Header)
    ensures !(IsLength(h) && IsCoding(h))
  {
  }

  lemma BreakIsLocal(d: seq<byte>, pos: nat)
    requires pos < |d| && d[pos] == CR
    ensures var r := LineBreak(d, pos); (r.Fail? ==> !r.foreign) && (r.Got? ==> r == Got((), pos + 2))
  {
  }
}
