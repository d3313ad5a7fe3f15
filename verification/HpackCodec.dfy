/** The decoder and encoder objects, proved against the block format. */
module HpackCodec {
  import opened Bytes
  import opened HpackInteger
  import opened HpackList
  import opened HpackTable
  import opened HpackSpec

  datatype Verdict = Ok | CompressionError | TooManyHeaders

  function Take<T>(s: seq<T>, n: nat): seq<T> { if |s| <= n then s else s[..n] }

  lemma TakeNone<T>(n: nat)
    ensures Take<T>([], n) == []
  {
  }

  lemma TakeMore<T>(s: seq<T>, x: T, n: nat)
    ensures Take(s + [x], n) == if |Take(s, n)| >= n then Take(s, n) else Take(s, n) + [x]
    ensures |s| > n ==> |Take(s, n)| >= n
    ensures |s| + 1 > n <==> |Take(s, n)| >= n
  {
  }

  class Decoder {
    const h: Huffman
    const table: DynamicTable
    var limit: nat

    ghost predicate Valid()
      reads this, table, table.entries, table.data
    {
      table.Valid() && table.maxSize <= limit <= STORAGE_BYTES
    }

    ghost function State(): DecState
      reads this, table
    {
      DecState(table.list, table.maxSize, limit)
    }

    constructor (h: Huffman, maxTableSize: nat)
      ensures Valid() && fresh(table) && fresh(table.entries) && fresh(table.data) && this.h == h
      ensures State() == var n := if maxTableSize < STORAGE_BYTES then maxTableSize else STORAGE_BYTES; DecState([], n, n)
    {
      this.h := h;
      table := new DynamicTable(maxTableSize);
      limit := if maxTableSize < STORAGE_BYTES then maxTableSize else STORAGE_BYTES;
    }

    /** Our advertised limit changed; a larger table shrinks to it. */
    method SetMaxTableSize(size: nat)
      requires Valid()
      modifies this, table
      ensures Valid() && limit == if size < STORAGE_BYTES then size else STORAGE_BYTES
      ensures table.maxSize == if old(table.maxSize) > limit then limit else old(table.maxSize)
      ensures table.list == Evict(old(table.list), table.maxSize)
    {
      limit := if size < STORAGE_BYTES then size else STORAGE_BYTES;
      if table.maxSize > limit {
        table.SetMaxSize(limit);
      }
    }

    method DecodeString(input: seq<byte>) returns (ok: bool, s: seq<byte>, used: nat)
      ensures HpackSpec.DecodeString(h, input) == if ok then Some(Parsed(s, used)) else None
    {
      hide DecodeInt;
      ok, s, used := false, [], 0;
      var okInt, n, intLen := DecodeInteger(input, 7);
      if !okInt || n > MAX_STRING || n > |input| - intLen {
        return;
      }
      var payload := input[intLen..intLen + n];
      if input[0] < 128 {
        return true, payload, intLen + n;
      }
      if n == 0 {
        return true, [], intLen;
      }
      var decoded := h.decode(payload);
      if decoded.None? || |decoded.value| > n * 8 / 5 + 1 {
        return;
      }
      return true, decoded.value, intLen + n;
    }

    method LookupIndex(index: nat) returns (ok: bool, e: Entry)
      requires Valid()
      ensures Lookup(table.list, index) == if ok then Some(e) else None
    {
      ok, e := false, Entry([], []);
      if index == 0 {
        return;
      }
      if index <= |STATIC_TABLE| {
        return true, StaticEntry(index);
      }
      var found, name, value := table.Get(index - |STATIC_TABLE| - 1);
      return found, Entry(name, value);
    }

    method DecodeLiteral(input: seq<byte>, prefixBits: nat) returns (ok: bool, e: Entry, used: nat)
      requires Valid() && 1 <= prefixBits <= 8
      ensures HpackSpec.DecodeLiteral(h, table.list, input, prefixBits) == if ok then Some(Parsed(e, used)) else None
    {
      hide DecodeInt, HpackSpec.DecodeString, Lookup;
      ok, e, used := false, Entry([], []), 0;
      var okInt, index, pos := DecodeInteger(input, prefixBits);
      if !okInt {
        return;
      }
      var name: seq<byte> := [];
      if index == 0 {
        var okName, n, nameUsed := DecodeString(input[pos..]);
        if !okName {
          return;
        }
        name, pos := n, pos + nameUsed;
      } else {
        var found, entry := LookupIndex(index);
        if !found {
          return;
        }
        name := entry.name;
      }
      var okValue, value, valueUsed := DecodeString(input[pos..]);
      if !okValue {
        return;
      }
      return true, Entry(name, value), pos + valueUsed;
    }

    /** One turn of the decoding loop: the state moves exactly as the format says, or not at all. */
    method DecodeStep(input: seq<byte>, seen: bool) returns (ok: bool, used: nat, field: Option<Field>)
      requires Valid() && input != []
      modifies table, table.entries, table.data
      ensures Valid()
      ensures DecodeOne(h, old(State()), input, seen) == if ok then Item(used, State(), field) else Malformed
      ensures !ok ==> State() == old(State())
    {
      hide DecodeInt, HpackSpec.DecodeLiteral, Lookup, Insert, Evict;
      ok, used, field := false, 0, None;
      if input[0] >= 128 {
        var okInt, index, n := DecodeInteger(input, 7);
        if !okInt {
          return;
        }
        var found, e := LookupIndex(index);
        if !found {
          return;
        }
        return true, n, Some(Field(e.name, e.value, false));
      } else if input[0] >= 64 {
        var okLit, e, n := DecodeLiteral(input, 6);
        if !okLit {
          return;
        }
        table.Add(e.name, e.value);
        return true, n, Some(Field(e.name, e.value, false));
      } else if input[0] >= 32 {
        if seen {
          return;
        }
        var okInt, size, n := DecodeInteger(input, 5);
        if !okInt || size > limit {
          return;
        }
        table.SetMaxSize(size);
        return true, n, None;
      } else {
        var okLit, e, n := DecodeLiteral(input, 4);
        if !okLit {
          return;
        }
        return true, n, Some(Field(e.name, e.value, input[0] >= 16));
      }
    }

    /** Every representation is processed; the cap only cuts what is handed out. */
    method Decode(input: seq<byte>, maxHeaders: nat) returns (verdict: Verdict, output: seq<Field>)
      requires Valid()
      modifies table, table.entries, table.data
      ensures Valid()
      ensures State() == DecodeBlock(h, old(State()), input, false).st
      ensures output == Take(DecodeBlock(h, old(State()), input, false).fields, maxHeaders)
      ensures verdict == var b := DecodeBlock(h, old(State()), input, false);
                if !b.ok then CompressionError else if |b.fields| > maxHeaders then TooManyHeaders else Ok
    {
      hide DecodeOne, DecodeBlock, DynamicTable.Valid, Take;
      ghost var whole := DecodeBlock(h, State(), input, false);
      output := [];
      TakeNone<Field>(maxHeaders);
      var pos, seen, tooMany, guard := 0, false, false, 0;
      ghost var got: seq<Field> := [];
      assert input[0..] == input;
      while guard < |input| && pos < |input|
        invariant Valid() && guard <= pos <= |input|
        invariant Continues(whole, got, DecodeBlock(h, State(), input[pos..], seen))
        invariant output == Take(got, maxHeaders) && tooMany == (|got| > maxHeaders)
        decreases |input| - guard
      {
        DecodeBlockStep(h, State(), input[pos..], seen);
        var ok, used, field := DecodeStep(input[pos..], seen);
        if !ok {
          assert whole.fields == got + [] == got;
          return CompressionError, output;
        }
        assert input[pos..][used..] == input[pos + used..];
        pos, guard := pos + used, guard + 1;
        if field.Some? {
          seen := true;
          TakeMore(got, field.value, maxHeaders);
          got := got + [field.value];
          if |output| >= maxHeaders {
            tooMany := true;
          } else {
            output := output + [field.value];
          }
        }
      }
      assert input[pos..] == [];
      DecodeBlockEnd(h, State(), seen);
      assert whole.fields == got + [] == got;
      verdict := if tooMany then TooManyHeaders else Ok;
    }
  }

  /** rest is what remains of whole after the fields already got. */
  ghost predicate Continues(whole: Block, got: seq<Field>, rest: Block) {
    whole == Block(rest.ok, got + rest.fields, rest.st)
  }

  lemma DecodeBlockEnd(h: Huffman, st: DecState, seen: bool)
    ensures DecodeBlock(h, st, [], seen) == Block(true, [], st)
  {
  }

  lemma DecodeBlockStep(h: Huffman, st: DecState, b: seq<byte>, seen: bool)
    requires b != []
    ensures match DecodeOne(h, st, b, seen)
            case Malformed => DecodeBlock(h, st, b, seen) == Block(false, [], st)
            case Item(used, st', field) =>
              var rest := DecodeBlock(h, st', b[used..], seen || field.Some?);
              Continues(DecodeBlock(h, st, b, seen), if field.Some? then [field.value] else [], rest)
  {
  }

  /** Octets before w are kept, and code stands at w, or it did not fit. */
  twostate predicate Wrote(output: array<byte>, w: nat, code: seq<byte>, ok: bool, n: nat)
    requires w <= output.Length
    reads output
  {
    && output[..w] == old(output[..w])
    && (ok <==> |code| <= output.Length - w)
    && (ok ==> n == |code| && output[w..w + n] == code)
  }

  class Encoder {
    const h: Huffman
    var tableSize: nat
    var pendingMin: nat
    var pending: bool

    ghost function State(): EncState
      reads this
    {
      EncState(tableSize, pendingMin, pending)
    }

    /** A pending announcement is always the size in force: it only ever shrinks. */
    ghost predicate Valid()
      reads this
    {
      pending ==> pendingMin == tableSize
    }

    constructor (h: Huffman, maxTableSize: nat)
      ensures Valid() && this.h == h && !pending
      ensures tableSize == if maxTableSize < STORAGE_BYTES then maxTableSize else STORAGE_BYTES
    {
      this.h := h;
      var n := if maxTableSize < STORAGE_BYTES then maxTableSize else STORAGE_BYTES;
      tableSize, pendingMin, pending := n, n, false;
    }

    /** The peer's SETTINGS_HEADER_TABLE_SIZE. */
    method SetMaxTableSize(size: nat)
      requires Valid()
      modifies this
      ensures Valid()
      ensures State() == Announce(old(State()), size)
    {
      if size >= tableSize {
        return;
      }
      tableSize := size;
      pendingMin := if pending then Min(pendingMin, size) else size;
      pending := true;
    }

    /** The caller has set output[w] to the bits above the prefix. */
    method EncodeInteger(value: nat, prefixBits: nat, output: array<byte>, w: nat) returns (ok: bool, written: nat)
      requires 1 <= prefixBits <= 8 && w < output.Length && output[w] % Span(prefixBits) == 0
      modifies output
      ensures Wrote(output, w, EncodeInt(value, prefixBits, old(output[w])), ok, written)
    {
      hide EncodeInt, Span;
      var mask := Span(prefixBits) - 1;
      var flags := output[w];
      EncodeIntCases(value, prefixBits, flags);
      ghost var code := EncodeInt(value, prefixBits, flags);
      ok, written := false, 0;
      if value < mask {
        output[w] := flags + value;
        return true, 1;
      }
      output[w] := flags + mask;
      var v: nat := value - mask;
      var pos := 1;
      while v >= 128
        invariant 1 <= pos <= output.Length - w
        invariant output[..w] == old(output[..w])
        invariant code == output[w..w + pos] + Groups(v)
      {
        if pos >= output.Length - w {
          return;
        }
        GroupsMore(output[w..w + pos], v);
        PutOctet(output, w, w + pos, v % 128 + 128);
        pos, v := pos + 1, v / 128;
      }
      if pos >= output.Length - w {
        return;
      }
      PutOctet(output, w, w + pos, v);
      return true, pos + 1;
    }

    method EncodeString(s: seq<byte>, output: array<byte>, w: nat) returns (ok: bool, written: nat)
      requires w <= output.Length
      modifies output
      ensures Wrote(output, w, HpackSpec.EncodeString(h, s), ok, written)
    {
      hide EncodeInt, HpackSpec.EncodeString;
      ok, written := false, 0;
      if w == output.Length {
        return;
      }
      var coded := h.encode(s);
      var huffman := s != [] && |coded| < |s|;
      var payload := if huffman then coded else s;
      StringIs(h, s);
      var okLen, lenBytes := EncodePrefixed(if huffman then 128 else 0, |payload|, 7, output, w);
      if !okLen || |payload| > output.Length - w - lenBytes {
        return;
      }
      CopyAfter(payload, output, w, w + lenBytes);
      ok, written := true, lenBytes + |payload|;
    }

    /** A string after what has been written from w on. */
    method AppendString(s: seq<byte>, output: array<byte>, w: nat, at: nat) returns (ok: bool, written: nat)
      requires w <= at <= output.Length
      modifies output
      ensures output[..w] == old(output[..w])
      ensures ok <==> |HpackSpec.EncodeString(h, s)| <= output.Length - at
      ensures ok ==> written == |HpackSpec.EncodeString(h, s)|
                     && output[w..at + written] == old(output[w..at]) + HpackSpec.EncodeString(h, s)
    {
      hide HpackSpec.EncodeString;
      ghost var mid := output[..];
      ok, written := EncodeString(s, output, at);
      TwoWrites(mid, output[..], w, at, if ok then at + written else at);
    }

    method EncodePrefixed(flags: byte, value: nat, prefixBits: nat, output: array<byte>, w: nat) returns (ok: bool, written: nat)
      requires 1 <= prefixBits <= 8 && w < output.Length && flags % Span(prefixBits) == 0
      modifies output
      ensures Wrote(output, w, EncodeInt(value, prefixBits, flags), ok, written)
    {
      hide EncodeInt;
      output[w] := flags;
      ok, written := EncodeInteger(value, prefixBits, output, w);
    }

    method EncodeName(f: Field, output: array<byte>, w: nat) returns (ok: bool, written: nat)
      requires w < output.Length
      modifies output
      ensures Wrote(output, w, HpackSpec.EncodeName(h, f), ok, written)
    {
      hide EncodeInt, FindNameFrom, HpackSpec.EncodeString, HpackSpec.EncodeName;
      NameIs(h, f);
      var nameIdx := FindNameFrom(f.name, 1);
      ok, written := EncodePrefixed(if f.sensitive then 16 else 0, nameIdx, 4, output, w);
      if ok && nameIdx == 0 {
        var okName, m := AppendString(f.name, output, w, w + written);
        ok, written := okName, written + m;
      }
    }

    method EncodeOne(f: Field, output: array<byte>, w: nat) returns (ok: bool, written: nat)
      requires w <= output.Length
      modifies output
      ensures Wrote(output, w, EncodeField(h, f), ok, written)
    {
      hide EncodeInt, FindFrom, FindNameFrom, HpackSpec.EncodeString, HpackSpec.EncodeName, EncodeField;
      FieldIs(h, f);
      ok, written := false, 0;
      if w == output.Length {
        return;
      }
      var full := if f.sensitive then 0 else FindFrom(f.name, f.value, 1);
      if full != 0 {
        ok, written := EncodePrefixed(128, full, 7, output, w);
        return;
      }
      ok, written := EncodeName(f, output, w);
      if ok {
        var okValue, m := AppendString(f.value, output, w, w + written);
        ok, written := okValue, written + m;
      }
    }

    method EncodeSize(size: nat, output: array<byte>, w: nat) returns (ok: bool, written: nat)
      requires w <= output.Length
      modifies output
      ensures Wrote(output, w, EncodeInt(size, 5, 32), ok, written)
    {
      hide EncodeInt;
      ok, written := false, 0;
      if w < output.Length {
        ok, written := EncodePrefixed(32, size, 5, output, w);
      }
    }

    /** A reduction the peer asked for is announced once the whole block fits, and stays pending otherwise. */
    method Encode(headers: seq<Field>, output: array<byte>) returns (ok: bool, written: nat)
      requires Valid()
      modifies this, output
      ensures Valid()
      ensures Wrote(output, 0, EncodeBlock(h, old(State()), headers), ok, written)
      ensures State() == if ok then old(State()).(pending := false) else old(State())
    {
      hide EncodeInt, EncodeField, EncodeFields, EncodeUpdates;
      ghost var updates := EncodeUpdates(State());
      UpdatesAre(State());
      ok, written := true, 0;
      if pending { // one update suffices: pendingMin == tableSize
        ok, written := EncodeSize(pendingMin, output, 0);
        if !ok {
          return;
        }
      }
      assert output[..written] == updates;
      var i := 0;
      assert headers[0..] == headers;
      while i < |headers|
        invariant 0 <= i <= |headers| && written <= output.Length
        invariant EncodeBlock(h, State(), headers) == output[..written] + EncodeFields(h, headers[i..])
        invariant State() == old(State())
      {
        ghost var before := output[..written];
        FieldsStep(h, headers, i);
        var okField, n := EncodeOne(headers[i], output, written);
        if !okField {
          return false, 0;
        }
        JoinWrites(output[..], 0, written, written + n);
        Regroup(before, EncodeField(h, headers[i]), EncodeFields(h, headers[i + 1..]));
        assert output[..written + n] == before + EncodeField(h, headers[i]);
        written, i := written + n, i + 1;
      }
      NoFields(h, headers);
      pending := false;
    }
  }

  lemma UpdatesAre(es: EncState)
    ensures !es.pending ==> EncodeUpdates(es) == []
    ensures es.pending && es.pendingMin == es.tableSize ==> EncodeUpdates(es) == EncodeInt(es.pendingMin, 5, 32)
  {
    assert EncodeInt(es.pendingMin, 5, 32) + [] == EncodeInt(es.pendingMin, 5, 32);
  }

  lemma NoFields(h: Huffman, fs: seq<Field>)
    ensures EncodeFields(h, fs[|fs|..]) == [] && forall b: seq<byte> :: b + [] == b
  {
  }

  lemma FieldsStep(h: Huffman, fs: seq<Field>, i: nat)
    requires i < |fs|
    ensures EncodeFields(h, fs[i..]) == EncodeField(h, fs[i]) + EncodeFields(h, fs[i + 1..])
  {
    assert fs[i..][1..] == fs[i + 1..];
  }

  /** One octet more after those from w on. */
  method PutOctet(output: array<byte>, w: nat, at: nat, b: byte)
    requires w <= at < output.Length
    modifies output
    ensures output[..w] == old(output[..w]) && output[w..at + 1] == old(output[w..at]) + [b]
  {
    ghost var was := output[..];
    output[at] := b;
    assert output[..] == was[at := b];
  }

  lemma GroupsMore(head: seq<byte>, v: nat)
    requires v >= 128
    ensures head + Groups(v) == head + [v % 128 + 128] + Groups(v / 128)
  {
    assert Groups(v) == [v % 128 + 128] + Groups(v / 128);
    hide Groups;
    Regroup(head, [v % 128 + 128], Groups(v / 128));
  }

  lemma NameIs(h: Huffman, f: Field)
    ensures var index := FindNameFrom(f.name, 1);
            var code := EncodeInt(index, 4, if f.sensitive then 16 else 0);
            HpackSpec.EncodeName(h, f) == if index == 0 then code + HpackSpec.EncodeString(h, f.name) else code
  {
    hide EncodeInt, FindNameFrom, HpackSpec.EncodeString;
  }

  lemma FieldIs(h: Huffman, f: Field)
    ensures var full := if f.sensitive then 0 else FindFrom(f.name, f.value, 1);
            EncodeField(h, f) == if full != 0 then EncodeInt(full, 7, 128) else HpackSpec.EncodeName(h, f) + HpackSpec.EncodeString(h, f.value)
  {
    hide EncodeInt, FindFrom, HpackSpec.EncodeString, HpackSpec.EncodeName;
  }

  lemma StringIs(h: Huffman, s: seq<byte>)
    ensures var huffman := s != [] && |h.encode(s)| < |s|;
            var payload := if huffman then h.encode(s) else s;
            HpackSpec.EncodeString(h, s) == EncodeInt(|payload|, 7, if huffman then 128 else 0) + payload
  {
    hide EncodeInt;
  }

  /** What stands from w on is continued. */
  method CopyAfter(bytes: seq<byte>, output: array<byte>, w: nat, at: nat)
    requires w <= at && at + |bytes| <= output.Length
    modifies output
    ensures output[..w] == old(output[..w])
    ensures output[w..at + |bytes|] == old(output[w..at]) + bytes
  {
    ghost var head := output[..at];
    CopyInto(bytes, output, at);
    JoinWrites(output[..], w, at, at + |bytes|);
    assert output[..at] == head;
    assert output[..w] == head[..w];
  }

  method CopyInto(bytes: seq<byte>, output: array<byte>, w: nat)
    requires w + |bytes| <= output.Length
    modifies output
    ensures output[..w] == old(output[..w])
    ensures output[w..w + |bytes|] == bytes
  {
    var i := 0;
    while i < |bytes|
      invariant 0 <= i <= |bytes|
      invariant output[..w] == old(output[..w])
      invariant output[w..w + i] == bytes[..i]
    {
      output[w + i] := bytes[i];
      i := i + 1;
    }
  }

  /** After a second write at b, what stood from a on is continued, and what stood before is as it was. */
  lemma TwoWrites(mid: seq<byte>, out: seq<byte>, a: nat, b: nat, c: nat)
    requires a <= b <= c <= |out| == |mid| && out[..b] == mid[..b]
    ensures out[..a] == mid[..a] && out[a..c] == mid[a..b] + out[b..c]
  {
    assert out[..a] == out[..b][..a] && mid[..a] == mid[..b][..a];
    assert out[a..b] == out[..b][a..] && mid[a..b] == mid[..b][a..];
  }

  lemma JoinWrites(out: seq<byte>, a: nat, b: nat, c: nat)
    requires a <= b <= c <= |out|
    ensures out[a..c] == out[a..b] + out[b..c]
    ensures out[a..b] == out[..b][a..b]
  {
  }

  lemma EncodeIntCases(v: nat, p: nat, flags: byte)
    requires 1 <= p <= 8 && flags % Span(p) == 0
    ensures flags + Span(p) <= 256
    ensures v < Span(p) - 1 ==> EncodeInt(v, p, flags) == [flags + v]
    ensures v >= Span(p) - 1 ==> EncodeInt(v, p, flags) == [flags + Span(p) - 1] + Groups(v - (Span(p) - 1))
  {
    FlagsLeaveRoom(p, flags);
  }
}
