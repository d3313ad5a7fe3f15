/** Decoding undoes encoding, and exactly when. */
module HpackRoundTrip {
  import opened Bytes
  import opened HpackInteger
  import opened HpackList
  import opened HpackSpec

  lemma StaticTableHas61()
    ensures |STATIC_TABLE| == STATIC_SIZE
  {
  }

  /** Strings survive exactly when the announced length is within the decoder's limit. */
  lemma StringRoundTrip(h: Huffman, s: seq<byte>, rest: seq<byte>)
    requires Lossless(h)
    ensures DecodeString(h, EncodeString(h, s) + rest)
         == if PayloadLength(h, s) <= MAX_STRING then Some(Parsed(s, |EncodeString(h, s)|)) else None
  {
    hide EncodeInt, DecodeInt;
    var huffman := s != [] && |h.encode(s)| < |s|;
    var flags := if huffman then 128 else 0;
    var payload := if huffman then h.encode(s) else s;
    var prefix := EncodeInt(|payload|, 7, flags);
    assert EncodeString(h, s) + rest == prefix + (payload + rest);
    IntRoundTrip(|payload|, 7, flags, payload + rest);
    assert prefix[0] / 128 == flags / 128;
    assert h.decode(h.encode(s)) == Some(s) && 5 * |s| <= 8 * |h.encode(s)|;
    hide EncodeString, Lossless;
    if |payload| <= MAX_STRING {
      assert (prefix + (payload + rest))[|prefix|..|prefix| + |payload|] == payload;
    }
  }

  /** Within the string limit; an entry found whole in the static table needs no string at all. */
  predicate FieldFits(h: Huffman, f: Field) {
    || (!f.sensitive && FindFrom(f.name, f.value, 1) != 0)
    || ((FindNameFrom(f.name, 1) != 0 || PayloadLength(h, f.name) <= MAX_STRING) && PayloadLength(h, f.value) <= MAX_STRING)
  }

  lemma LiteralRoundTrip(h: Huffman, list: seq<Entry>, f: Field, rest: seq<byte>)
    requires Lossless(h)
    requires f.sensitive || FindFrom(f.name, f.value, 1) == 0
    ensures DecodeLiteral(h, list, EncodeField(h, f) + rest, 4)
         == if FieldFits(h, f) then Some(Parsed(Entry(f.name, f.value), |EncodeField(h, f)|)) else None
  {
    hide EncodeInt, DecodeInt, EncodeString, DecodeString, FindNameFrom, FindFrom, PayloadLength, StaticEntry;
    var index := FindNameFrom(f.name, 1);
    var flags := if f.sensitive then 16 else 0;
    var head := EncodeInt(index, 4, flags);
    var name := if index == 0 then EncodeString(h, f.name) else [];
    var value := EncodeString(h, f.value);
    var all := EncodeField(h, f) + rest;
    assert all == head + (name + (value + rest));
    StaticTableHas61();
    IntRoundTrip(index, 4, flags, name + (value + rest));
    assert all[|head|..] == name + (value + rest);
    assert all[|head| + |name|..] == value + rest;
    StringRoundTrip(h, f.value, rest);
    if index == 0 {
      StringRoundTrip(h, f.name, value + rest);
    }
  }

  lemma FieldRoundTrip(h: Huffman, st: DecState, f: Field, rest: seq<byte>, seen: bool)
    requires Lossless(h)
    ensures DecodeOne(h, st, EncodeField(h, f) + rest, seen)
         == if FieldFits(h, f) then Item(|EncodeField(h, f)|, st, Some(f)) else Malformed
  {
    hide EncodeInt, DecodeInt, FindFrom, FindNameFrom, DecodeLiteral, StaticEntry;
    var full := if f.sensitive then 0 else FindFrom(f.name, f.value, 1);
    if full != 0 {
      StaticTableHas61();
      IntRoundTrip(full, 7, 128, rest);
    } else {
      LiteralRoundTrip(h, st.list, f, rest);
    }
  }

  lemma {:induction false} FieldsRoundTrip(h: Huffman, st: DecState, fs: seq<Field>, seen: bool)
    requires Lossless(h)
    ensures (forall f | f in fs :: FieldFits(h, f)) ==> DecodeBlock(h, st, EncodeFields(h, fs), seen) == Block(true, fs, st)
    ensures !(forall f | f in fs :: FieldFits(h, f)) ==> !DecodeBlock(h, st, EncodeFields(h, fs), seen).ok
  {
    hide FieldFits, DecodeOne, EncodeField;
    if fs != [] {
      var head, tail := EncodeField(h, fs[0]), EncodeFields(h, fs[1..]);
      FieldRoundTrip(h, st, fs[0], tail, seen);
      assert (head + tail)[|head|..] == tail;
      FieldsRoundTrip(h, st, fs[1..], true);
      assert fs == [fs[0]] + fs[1..];
    }
  }

  /** The table after the size updates an encoder has pending: entries may leave, none is added. */
  function AfterUpdates(es: EncState, st: DecState): DecState {
    if !es.pending then st
    else
      var st1 := Resized(st, es.pendingMin);
      if es.tableSize == es.pendingMin then st1 else Resized(st1, es.tableSize)
  }

  function Resized(st: DecState, size: nat): DecState {
    st.(list := Evict(st.list, size), maxSize := size)
  }

  lemma UpdateRoundTrip(h: Huffman, st: DecState, size: nat, rest: seq<byte>)
    requires size < TAIL_RANGE
    ensures DecodeOne(h, st, EncodeInt(size, 5, 32) + rest, false)
         == if size <= st.limit then Item(|EncodeInt(size, 5, 32)|, Resized(st, size), None) else Malformed
  {
    IntRoundTrip(size, 5, 32, rest);
    hide EncodeInt, DecodeInt;
    assert EncodeInt(size, 5, 32)[0] / 32 == 1;
  }

  lemma UpdateThenRest(h: Huffman, st: DecState, size: nat, rest: seq<byte>)
    requires size < TAIL_RANGE && size <= st.limit
    ensures DecodeBlock(h, st, EncodeInt(size, 5, 32) + rest, false) == DecodeBlock(h, Resized(st, size), rest, false)
  {
    var update := EncodeInt(size, 5, 32);
    UpdateRoundTrip(h, st, size, rest);
    hide DecodeOne, EncodeInt, Resized;
    assert (update + rest)[|update|..] == rest;
  }

  /** Pending updates are taken first. */
  lemma UpdatesThenRest(h: Huffman, es: EncState, st: DecState, rest: seq<byte>)
    requires es.pending ==> es.pendingMin < TAIL_RANGE && es.tableSize < TAIL_RANGE
    requires es.pending ==> es.pendingMin <= st.limit && es.tableSize <= st.limit
    ensures DecodeBlock(h, st, EncodeUpdates(es) + rest, false) == DecodeBlock(h, AfterUpdates(es, st), rest, false)
  {
    hide EncodeInt, DecodeBlock, Evict;
    if !es.pending {
      assert [] + rest == rest;
    } else {
      var u1, u2 := EncodeInt(es.pendingMin, 5, 32), EncodeInt(es.tableSize, 5, 32);
      if es.tableSize == es.pendingMin {
        assert u1 + [] == u1;
        UpdateThenRest(h, st, es.pendingMin, rest);
      } else {
        Regroup(u1, u2, rest);
        UpdateThenRest(h, st, es.pendingMin, u2 + rest);
        UpdateThenRest(h, Resized(st, es.pendingMin), es.tableSize, rest);
      }
    }
  }

  /** From any decoder whose limit admits the announced sizes, a block yields its fields and only evicts. */
  lemma BlockRoundTrip(h: Huffman, es: EncState, st: DecState, fs: seq<Field>)
    requires Lossless(h)
    requires es.pending ==> es.pendingMin < TAIL_RANGE && es.tableSize < TAIL_RANGE
    requires es.pending ==> es.pendingMin <= st.limit && es.tableSize <= st.limit
    ensures (forall f | f in fs :: FieldFits(h, f)) ==>
              DecodeBlock(h, st, EncodeBlock(h, es, fs), false) == Block(true, fs, AfterUpdates(es, st))
    ensures !(forall f | f in fs :: FieldFits(h, f)) ==> !DecodeBlock(h, st, EncodeBlock(h, es, fs), false).ok
  {
    hide Lossless, FieldFits, EncodeFields, EncodeUpdates, DecodeBlock, AfterUpdates;
    UpdatesThenRest(h, es, st, EncodeFields(h, fs));
    FieldsRoundTrip(h, AfterUpdates(es, st), fs, false);
  }
}
