/** Header lists, the static table, and the block format of sections 5 and 6 of RFC 7541 on values. */
module HpackSpec {
  import opened Bytes
  import opened HpackInteger
  import opened HpackList

  const STATIC_SIZE: nat := 61
  const MAX_STRING: nat := 65536

  datatype Field = Field(name: seq<byte>, value: seq<byte>, sensitive: bool)

  /** Appendix A of RFC 7541. */
  const STATIC_TABLE: seq<(string, string)> := PSEUDO_ENTRIES + REGULAR_ENTRIES

  const PSEUDO_ENTRIES: seq<(string, string)> := [
    (":authority", ""),
    (":method", "GET"),
    (":method", "POST"),
    (":path", "/"),
    (":path", "/index.html"),
    (":scheme", "http"),
    (":scheme", "https"),
    (":status", "200"),
    (":status", "204"),
    (":status", "206"),
    (":status", "304"),
    (":status", "400"),
    (":status", "404"),
    (":status", "500")
  ]

  const REGULAR_ENTRIES: seq<(string, string)> := [
    ("accept-charset", ""),
    ("accept-encoding", "gzip, deflate"),
    ("accept-language", ""),
    ("accept-ranges", ""),
    ("accept", ""),
    ("access-control-allow-origin", ""),
    ("age", ""),
    ("allow", ""),
    ("authorization", ""),
    ("cache-control", ""),
    ("content-disposition", ""),
    ("content-encoding", ""),
    ("content-language", ""),
    ("content-length", ""),
    ("content-location", ""),
    ("content-range", ""),
    ("content-type", ""),
    ("cookie", ""),
    ("date", ""),
    ("etag", ""),
    ("expect", ""),
    ("expires", ""),
    ("from", ""),
    ("host", ""),
    ("if-match", ""),
    ("if-modified-since", ""),
    ("if-none-match", ""),
    ("if-range", ""),
    ("if-unmodified-since", ""),
    ("last-modified", ""),
    ("link", ""),
    ("location", ""),
    ("max-forwards", ""),
    ("proxy-authenticate", ""),
    ("proxy-authorization", ""),
    ("range", ""),
    ("referer", ""),
    ("refresh", ""),
    ("retry-after", ""),
    ("server", ""),
    ("set-cookie", ""),
    ("strict-transport-security", ""),
    ("transfer-encoding", ""),
    ("user-agent", ""),
    ("vary", ""),
    ("via", ""),
    ("www-authenticate", "")
  ]

  function StaticEntry(i: nat): Entry
    requires 1 <= i <= |STATIC_TABLE|
  {
    Entry(Ascii(STATIC_TABLE[i - 1].0), Ascii(STATIC_TABLE[i - 1].1))
  }

  /** First entry at position i or later with this name and value, 0 if there is none. */
  function FindFrom(name: seq<byte>, value: seq<byte>, i: nat): (r: nat)
    requires 1 <= i
    ensures r == 0 || (i <= r <= |STATIC_TABLE| && StaticEntry(r) == Entry(name, value))
    ensures forall j | i <= j <= |STATIC_TABLE| && (r == 0 || j < r) :: StaticEntry(j) != Entry(name, value)
    decreases |STATIC_TABLE| + 1 - i
  {
    if i > |STATIC_TABLE| then 0
    else if StaticEntry(i) == Entry(name, value) then i
    else FindFrom(name, value, i + 1)
  }

  function FindNameFrom(name: seq<byte>, i: nat): (r: nat)
    requires 1 <= i
    ensures r == 0 || (i <= r <= |STATIC_TABLE| && StaticEntry(r).name == name)
    ensures forall j | i <= j <= |STATIC_TABLE| && (r == 0 || j < r) :: StaticEntry(j).name != name
    decreases |STATIC_TABLE| + 1 - i
  {
    if i > |STATIC_TABLE| then 0
    else if StaticEntry(i).name == name then i
    else FindNameFrom(name, i + 1)
  }

  /** The Huffman coder pair, which is not part of this model: two total functions. */
  datatype Huffman = Huffman(encode: seq<byte> -> seq<byte>, decode: seq<byte> -> Option<seq<byte>>)

  /** What the round trip asks of it: it loses nothing, and no code is shorter than five bits. */
  ghost predicate Lossless(h: Huffman) {
    && (forall s {:trigger h.encode(s)} :: h.decode(h.encode(s)) == Some(s) && 5 * |s| <= 8 * |h.encode(s)|)
  }

  // ---- strings (section 5.2) ----

  function EncodeString(h: Huffman, s: seq<byte>): (b: seq<byte>)
    ensures |b| >= 1
  {
    if s != [] && |h.encode(s)| < |s|
    then EncodeInt(|h.encode(s)|, 7, 128) + h.encode(s)
    else EncodeInt(|s|, 7, 0) + s
  }

  /** Octets the length prefix of EncodeString announces. */
  function PayloadLength(h: Huffman, s: seq<byte>): nat {
    if s != [] && |h.encode(s)| < |s| then |h.encode(s)| else |s|
  }

  function DecodeString(h: Huffman, b: seq<byte>): (r: Option<Parsed<seq<byte>>>)
    ensures r.Some? ==> 1 <= r.value.used <= |b|
  {
    match DecodeInt(b, 7)
    case None => None
    case Some(Parsed(n, used)) =>
      if n > MAX_STRING || n > |b| - used then None
      else
        var payload := b[used..used + n];
        if b[0] < 128 then Some(Parsed(payload, used + n))
        else if n == 0 then Some(Parsed([], used))
        else
          match h.decode(payload)
          case None => None
          case Some(s) => if |s| > n * 8 / 5 + 1 then None else Some(Parsed(s, used + n))
  }

  // ---- field representations (section 6) ----

  function Lookup(list: seq<Entry>, index: nat): Option<Entry> {
    if index == 0 then None
    else if index <= |STATIC_TABLE| then Some(StaticEntry(index))
    else if index - |STATIC_TABLE| - 1 < |list| then Some(list[index - |STATIC_TABLE| - 1])
    else None
  }

  function DecodeLiteral(h: Huffman, list: seq<Entry>, b: seq<byte>, p: nat): (r: Option<Parsed<Entry>>)
    requires 1 <= p <= 8
    ensures r.Some? ==> 1 <= r.value.used <= |b|
  {
    match DecodeInt(b, p)
    case None => None
    case Some(Parsed(index, used)) =>
      var named: Option<Parsed<seq<byte>>> :=
        if index == 0 then DecodeString(h, b[used..])
        else match Lookup(list, index) case None => None case Some(e) => Some(Parsed(e.name, 0));
      match named
      case None => None
      case Some(Parsed(name, nameUsed)) =>
        match DecodeString(h, b[used + nameUsed..])
        case None => None
        case Some(Parsed(value, valueUsed)) => Some(Parsed(Entry(name, value), used + nameUsed + valueUsed))
  }

  /** The decoder between blocks: its table, the size in force, and the size we advertised. */
  datatype DecState = DecState(list: seq<Entry>, maxSize: nat, limit: nat)

  /** One representation: how many octets it took, the new state, and the field it yields if any. */
  datatype Item = Malformed | Item(used: nat, st: DecState, field: Option<Field>)

  function DecodeOne(h: Huffman, st: DecState, b: seq<byte>, seen: bool): (r: Item)
    requires b != []
    ensures r.Item? ==> 1 <= r.used <= |b|
  {
    if b[0] >= 128 then
      match DecodeInt(b, 7)
      case None => Malformed
      case Some(Parsed(index, used)) =>
        match Lookup(st.list, index)
        case None => Malformed
        case Some(e) => Item(used, st, Some(Field(e.name, e.value, false)))
    else if b[0] >= 64 then
      match DecodeLiteral(h, st.list, b, 6)
      case None => Malformed
      case Some(Parsed(e, used)) =>
        Item(used, st.(list := Insert(st.list, st.maxSize, e)), Some(Field(e.name, e.value, false)))
    else if b[0] >= 32 then
      if seen then Malformed else
      match DecodeInt(b, 5)
      case None => Malformed
      case Some(Parsed(size, used)) =>
        if size > st.limit then Malformed
        else Item(used, st.(list := Evict(st.list, size), maxSize := size), None)
    else
      match DecodeLiteral(h, st.list, b, 4)
      case None => Malformed
      case Some(Parsed(e, used)) => Item(used, st, Some(Field(e.name, e.value, b[0] >= 16)))
  }

  datatype Block = Block(ok: bool, fields: seq<Field>, st: DecState)

  /** A whole block; seen says whether a field representation has been met already. */
  function DecodeBlock(h: Huffman, st: DecState, b: seq<byte>, seen: bool): Block
    decreases |b|
  {
    if b == [] then Block(true, [], st) else
    match DecodeOne(h, st, b, seen)
    case Malformed => Block(false, [], st)
    case Item(used, st', field) =>
      var rest := DecodeBlock(h, st', b[used..], seen || field.Some?);
      if field.Some? then rest.(fields := [field.value] + rest.fields) else rest
  }

  // ---- encoder ----

  /** tableSize is what the peer's decoder may assume; an unannounced reduction is pending. */
  datatype EncState = EncState(tableSize: nat, pendingMin: nat, pending: bool)

  /** set_max_table_size of the encoder: only a reduction is announced. */
  function Announce(es: EncState, size: nat): EncState {
    if size >= es.tableSize then es else EncState(size, size, true)
  }

  /** The name part of a literal that is not to be indexed, or never. */
  function EncodeName(h: Huffman, f: Field): (b: seq<byte>)
    ensures |b| >= 1 && b[0] < 32
    ensures b[0] >= 16 <==> f.sensitive
  {
    var index := FindNameFrom(f.name, 1);
    EncodeInt(index, 4, if f.sensitive then 16 else 0) + (if index == 0 then EncodeString(h, f.name) else [])
  }

  function EncodeField(h: Huffman, f: Field): (b: seq<byte>)
    ensures |b| >= 1 && (b[0] >= 128 || b[0] < 32)
  {
    var full := if f.sensitive then 0 else FindFrom(f.name, f.value, 1);
    if full != 0 then EncodeInt(full, 7, 128) else EncodeName(h, f) + EncodeString(h, f.value)
  }

  function EncodeFields(h: Huffman, fs: seq<Field>): seq<byte> {
    if fs == [] then [] else EncodeField(h, fs[0]) + EncodeFields(h, fs[1..])
  }

  function EncodeUpdates(es: EncState): seq<byte> {
    if !es.pending then []
    else EncodeInt(es.pendingMin, 5, 32) + (if es.tableSize == es.pendingMin then [] else EncodeInt(es.tableSize, 5, 32))
  }

  function EncodeBlock(h: Huffman, es: EncState, fs: seq<Field>): seq<byte> {
    EncodeUpdates(es) + EncodeFields(h, fs)
  }
}
