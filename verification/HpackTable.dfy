/** The dynamic table of sections 2.3.2 and 4 of RFC 7541 as a plain list, newest entry first. */
module HpackList {
  import opened Bytes

  datatype Entry = Entry(name: seq<byte>, value: seq<byte>)

  function EntrySize(e: Entry): nat { |e.name| + |e.value| + 32 }

  function TableSize(l: seq<Entry>): nat {
    if l == [] then 0 else TableSize(l[..|l| - 1]) + EntrySize(l[|l| - 1])
  }

  /** Entries leave from the old end until the rest fits: what stays is the longest prefix that does. */
  function Evict(l: seq<Entry>, max: nat): (r: seq<Entry>)
    ensures r <= l
    ensures TableSize(r) <= max
    ensures |r| < |l| ==> TableSize(l[..|r| + 1]) > max
  {
    if TableSize(l) <= max then
      assert l[..|l|] == l;
      l
    else
      var rest := l[..|l| - 1];
      assert forall k | 0 <= k <= |rest| :: rest[..k] == l[..k];
      var r := Evict(rest, max);
      assert |r| == |rest| ==> l[..|r| + 1] == l;
      r
  }

  lemma EvictStep(l: seq<Entry>, max: nat)
    ensures TableSize(l) <= max ==> Evict(l, max) == l
    ensures TableSize(l) > max ==> Evict(l, max) == Evict(l[..|l| - 1], max)
  {
  }

  /** Section 4.4: an entry larger than the whole table empties it and is not added. */
  function Insert(l: seq<Entry>, max: nat, e: Entry): (r: seq<Entry>)
    ensures TableSize(r) <= max
    ensures EntrySize(e) > max ==> r == []
    ensures EntrySize(e) <= max ==> |r| > 0 && r[0] == e && r[1..] <= l
  {
    if EntrySize(e) > max then [] else
      var kept := Evict(l, max - EntrySize(e));
      TableSizeCons(e, kept);
      [e] + kept
  }

  lemma {:induction false} TableSizeCons(e: Entry, l: seq<Entry>)
    ensures TableSize([e] + l) == EntrySize(e) + TableSize(l)
  {
    if l == [] {
      assert [e] + l == [e];
      assert TableSize([e]) == TableSize([]) + EntrySize(e);
    } else {
      assert ([e] + l)[..|l|] == [e] + l[..|l| - 1];
      TableSizeCons(e, l[..|l| - 1]);
    }
  }

  lemma {:induction false} TableSizeAtLeast32Each(l: seq<Entry>)
    ensures TableSize(l) >= 32 * |l|
  {
    if l != [] {
      TableSizeAtLeast32Each(l[..|l| - 1]);
    }
  }
}

/** The ring of descriptors over one compacting byte arena that stores the table. */
module HpackTable {
  import opened Bytes
  import opened HpackList

  const STORAGE_BYTES: nat := 4096
  const MAX_ENTRIES: nat := 128

  datatype Slot = Slot(off: nat, nameLen: nat, valueLen: nat)

  function End(s: Slot): nat { s.off + s.nameLen + s.valueLen }

  /** Ring position of the i-th descriptor, oldest first. */
  function Ring(first: nat, i: nat): (k: nat)
    requires first < MAX_ENTRIES && i <= MAX_ENTRIES
    ensures k < MAX_ENTRIES
  {
    if first + i < MAX_ENTRIES then first + i else first + i - MAX_ENTRIES
  }

  lemma RingIsModulo(first: nat, i: nat)
    requires first < MAX_ENTRIES && i <= MAX_ENTRIES
    ensures Ring(first, i) == (first + i) % MAX_ENTRIES
  {
  }

  ghost predicate Holds(s: Slot, data: seq<byte>, e: Entry) {
    && End(s) <= |data|
    && e.name == data[s.off..s.off + s.nameLen]
    && e.value == data[s.off + s.nameLen..End(s)]
  }

  /** Descriptors (oldest first) tile [begin, end) without gap or overlap and spell out the list (newest first). */
  ghost predicate Denotes(slots: seq<Slot>, begin: nat, end: nat, data: seq<byte>, list: seq<Entry>) {
    if slots == [] then list == [] && begin == end else
      && list != []
      && slots[0].off == begin
      && Holds(slots[0], data, list[|list| - 1])
      && Denotes(slots[1..], End(slots[0]), end, data, list[..|list| - 1])
  }

  ghost predicate InRing(entries: seq<Slot>, first: nat, slots: seq<Slot>)
    requires |entries| == MAX_ENTRIES && first < MAX_ENTRIES && |slots| <= MAX_ENTRIES
  {
    forall i | 0 <= i < |slots| :: entries[Ring(first, i)] == slots[i]
  }

  lemma RingDropFirst(entries: seq<Slot>, first: nat, slots: seq<Slot>)
    requires |entries| == MAX_ENTRIES && first < MAX_ENTRIES && 0 < |slots| <= MAX_ENTRIES
    requires InRing(entries, first, slots)
    ensures InRing(entries, Ring(first, 1), slots[1..])
    ensures entries[first] == slots[0]
    ensures |slots| > 1 ==> entries[Ring(first, 1)] == slots[1]
  {
    assert Ring(first, 0) == first;
    forall i | 0 <= i < |slots| - 1
      ensures entries[Ring(Ring(first, 1), i)] == slots[1..][i]
    {
      assert Ring(Ring(first, 1), i) == Ring(first, i + 1);
    }
  }

  lemma RingPush(entries: seq<Slot>, first: nat, slots: seq<Slot>, slot: Slot)
    requires |entries| == MAX_ENTRIES && first < MAX_ENTRIES && |slots| < MAX_ENTRIES
    requires InRing(entries, first, slots)
    ensures InRing(entries[Ring(first, |slots|) := slot], first, slots + [slot])
  {
  }

  function Shifted(slots: seq<Slot>, gap: int): (r: seq<Slot>)
    requires forall i | 0 <= i < |slots| :: gap <= slots[i].off
    ensures |r| == |slots|
    ensures forall i | 0 <= i < |r| :: r[i] == slots[i].(off := slots[i].off - gap)
  {
    seq(|slots|, i requires 0 <= i < |slots| => slots[i].(off := slots[i].off - gap))
  }

  /** The oldest entry, and what is left without it. */
  lemma DenotesFirst(slots: seq<Slot>, begin: nat, end: nat, data: seq<byte>, list: seq<Entry>)
    requires Denotes(slots, begin, end, data, list) && slots != []
    ensures list != [] && slots[0].off == begin && slots[0].nameLen + slots[0].valueLen + 32 == EntrySize(list[|list| - 1])
    ensures TableSize(list) == TableSize(list[..|list| - 1]) + EntrySize(list[|list| - 1])
    ensures Denotes(slots[1..], End(slots[0]), end, data, list[..|list| - 1])
    ensures |slots| > 1 ==> slots[1].off == End(slots[0])
  {
  }

  lemma NoneInRing(entries: seq<Slot>, data: seq<byte>)
    requires |entries| == MAX_ENTRIES
    ensures InRing(entries, 0, []) && Denotes([], 0, 0, data, []) && TableSize([]) == 0
  {
  }

  lemma {:induction false} DenotesBounds(slots: seq<Slot>, begin: nat, end: nat, data: seq<byte>, list: seq<Entry>)
    requires Denotes(slots, begin, end, data, list)
    ensures |slots| == |list| && begin <= end
    ensures end - begin == TableSize(list) - 32 * |list|
    ensures slots != [] ==> end <= |data|
    ensures forall i | 0 <= i < |slots| :: begin <= slots[i].off
  {
    if slots != [] {
      DenotesBounds(slots[1..], End(slots[0]), end, data, list[..|list| - 1]);
    }
  }

  lemma {:induction false} DenotesAt(slots: seq<Slot>, begin: nat, end: nat, data: seq<byte>, list: seq<Entry>, i: nat)
    requires Denotes(slots, begin, end, data, list) && i < |list|
    ensures |slots| == |list|
    ensures Holds(slots[|list| - 1 - i], data, list[i])
  {
    DenotesBounds(slots, begin, end, data, list);
    if i < |list| - 1 {
      DenotesAt(slots[1..], End(slots[0]), end, data, list[..|list| - 1], i);
    }
  }

  lemma CopiedShift(s: seq<byte>, b: seq<byte>, from: nat, n: nat)
    requires Copied(s, b, 0, from, n)
    ensures forall k | from <= k < from + n :: s[k - from] == b[k]
  {
    forall k | from <= k < from + n ensures s[k - from] == b[k] {
      assert s[k - from] == s[0..n][k - from] && b[k] == b[from..from + n][k - from];
    }
  }

  lemma HoldsShifted(s: Slot, data: seq<byte>, moved: seq<byte>, e: Entry, gap: nat)
    requires Holds(s, data, e) && gap <= s.off && |moved| == |data|
    requires forall k | s.off <= k < End(s) :: moved[k - gap] == data[k]
    ensures Holds(s.(off := s.off - gap), moved, e)
  {
    SliceShifted(data, moved, s.off, s.off + s.nameLen, gap);
    SliceShifted(data, moved, s.off + s.nameLen, End(s), gap);
  }

  lemma SliceShifted(data: seq<byte>, moved: seq<byte>, i: nat, j: nat, gap: nat)
    requires gap <= i <= j <= |data| == |moved| && forall k | i <= k < j :: moved[k - gap] == data[k]
    ensures moved[i - gap..j - gap] == data[i..j]
  {
    forall k | 0 <= k < j - i ensures moved[i - gap..j - gap][k] == data[i..j][k] {
      assert moved[i + k - gap] == data[i + k];
    }
  }

  lemma {:induction false} DenotesShifted(slots: seq<Slot>, begin: nat, end: nat, data: seq<byte>, moved: seq<byte>, list: seq<Entry>, gap: nat)
    requires Denotes(slots, begin, end, data, list) && gap <= begin && end <= |data| == |moved|
    requires forall k | begin <= k < end :: moved[k - gap] == data[k]
    ensures begin <= end && forall i | 0 <= i < |slots| :: gap <= slots[i].off
    ensures Denotes(Shifted(slots, gap), begin - gap, end - gap, moved, list)
  {
    hide Holds;
    DenotesBounds(slots, begin, end, data, list);
    if slots != [] {
      var s := slots[0];
      DenotesBounds(slots[1..], End(s), end, data, list[..|list| - 1]);
      DenotesShifted(slots[1..], End(s), end, data, moved, list[..|list| - 1], gap);
      assert Shifted(slots, gap)[1..] == Shifted(slots[1..], gap);
      HoldsShifted(s, data, moved, list[|list| - 1], gap);
    }
  }

  lemma {:induction false} DenotesAppended(slots: seq<Slot>, begin: nat, end: nat, data: seq<byte>, written: seq<byte>, list: seq<Entry>, e: Entry)
    requires Denotes(slots, begin, end, data, list)
    requires |written| == |data| && forall k | 0 <= k < end <= |data| :: written[k] == data[k]
    requires Holds(Slot(end, |e.name|, |e.value|), written, e)
    ensures Denotes(slots + [Slot(end, |e.name|, |e.value|)], begin, end + |e.name| + |e.value|, written, [e] + list)
  {
    hide Holds;
    var s := Slot(end, |e.name|, |e.value|);
    var more := slots + [s];
    var longer := [e] + list;
    if slots == [] {
      assert more[1..] == [] && longer[..|longer| - 1] == [];
    } else {
      var t := slots[0];
      DenotesBounds(slots, begin, end, data, list);
      DenotesBounds(slots[1..], End(t), end, data, list[..|list| - 1]);
      DenotesAppended(slots[1..], End(t), end, data, written, list[..|list| - 1], e);
      assert more[1..] == slots[1..] + [s];
      assert longer[..|longer| - 1] == [e] + list[..|list| - 1];
      HoldsShifted(t, data, written, list[|list| - 1], 0);
    }
  }

  class DynamicTable {
    const entries: array<Slot>
    const data: array<byte>
    var first: nat
    var count: nat
    var currentSize: nat
    var maxSize: nat
    var dataBegin: nat
    var dataEnd: nat
    ghost var slots: seq<Slot>
    ghost var list: seq<Entry>

    ghost predicate Valid()
      reads this, entries, data
    {
      && entries.Length == MAX_ENTRIES && data.Length == STORAGE_BYTES
      && first < MAX_ENTRIES && count == |slots| == |list| <= MAX_ENTRIES && maxSize <= STORAGE_BYTES
      && dataBegin <= dataEnd <= STORAGE_BYTES
      && InRing(entries[..], first, slots)
      && Denotes(slots, dataBegin, dataEnd, data[..], list)
      && currentSize == TableSize(list) <= maxSize
    }

    constructor (max: nat)
      ensures Valid() && fresh(entries) && fresh(data)
      ensures list == [] && maxSize == if max < STORAGE_BYTES then max else STORAGE_BYTES
    {
      entries := new Slot[MAX_ENTRIES](i => Slot(0, 0, 0));
      data := new byte[STORAGE_BYTES](i => 0);
      first, count, currentSize, dataBegin, dataEnd, slots, list := 0, 0, 0, 0, 0, [], [];
      maxSize := if max < STORAGE_BYTES then max else STORAGE_BYTES;
    }

    method EvictOldest()
      requires Valid() && count > 0
      modifies this
      ensures Valid() && maxSize == old(maxSize)
      ensures list == old(list)[..|old(list)| - 1]
    {
      hide InRing, Denotes, TableSize, Ring;
      RingIsModulo(first, 1);
      RingDropFirst(entries[..], first, slots);
      DenotesFirst(slots, dataBegin, dataEnd, data[..], list);
      DenotesBounds(slots[1..], End(slots[0]), dataEnd, data[..], list[..count - 1]);
      NoneInRing(entries[..], data[..]);
      var e := entries[first];
      currentSize := currentSize - (e.nameLen + e.valueLen + 32);
      first := (first + 1) % MAX_ENTRIES;
      count := count - 1;
      slots, list := slots[1..], list[..count];
      if count == 0 {
        dataBegin, dataEnd, first := 0, 0, 0;
      } else {
        dataBegin := entries[first].off;
      }
    }

    method Compact()
      requires Valid()
      modifies this, entries, data
      ensures Valid() && list == old(list) && maxSize == old(maxSize) && count == old(count)
      ensures dataBegin == 0
    {
      hide InRing, Denotes, TableSize, Shifted, Copied;
      var live := dataEnd - dataBegin;
      if dataBegin == 0 {
        return;
      }
      DenotesBounds(slots, dataBegin, dataEnd, data[..], list);
      MoveDown(data, 0, dataBegin, live);
      CopiedShift(data[..], old(data[..]), dataBegin, live);
      DenotesShifted(slots, dataBegin, dataEnd, old(data[..]), data[..], list, dataBegin);
      SlideOffsets();
      slots := Shifted(slots, dataBegin);
      dataBegin := 0;
      dataEnd := live;
    }

    method SlideOffsets()
      requires entries.Length == MAX_ENTRIES && first < MAX_ENTRIES && count == |slots| <= MAX_ENTRIES
      requires InRing(entries[..], first, slots)
      requires forall i | 0 <= i < |slots| :: dataBegin <= slots[i].off
      modifies entries
      ensures InRing(entries[..], first, Shifted(slots, dataBegin))
    {
      ghost var target := Shifted(slots, dataBegin);
      var i := 0;
      while i < count
        invariant 0 <= i <= count
        invariant forall k | 0 <= k < i :: entries[Ring(first, k)] == target[k]
        invariant forall k | i <= k < count :: entries[Ring(first, k)] == slots[k]
      {
        RingIsModulo(first, i);
        var k := (first + i) % MAX_ENTRIES;
        var e := entries[k];
        assert e == slots[i];
        entries[k] := e.(off := e.off - dataBegin);
        i := i + 1;
      }
    }

    method Write(off: nat, bytes: seq<byte>)
      requires off + |bytes| <= data.Length
      modifies data
      ensures data[off..off + |bytes|] == bytes
      ensures forall k | 0 <= k < data.Length && !(off <= k < off + |bytes|) :: data[k] == old(data[k])
    {
      var i := 0;
      while i < |bytes|
        invariant 0 <= i <= |bytes|
        invariant forall k | 0 <= k < i :: data[off + k] == bytes[k]
        invariant forall k | 0 <= k < data.Length && !(off <= k < off + i) :: data[k] == old(data[k])
      {
        data[off + i] := bytes[i];
        i := i + 1;
      }
    }

    method WriteEntry(off: nat, e: Entry)
      requires off + |e.name| + |e.value| <= data.Length
      modifies data
      ensures Holds(Slot(off, |e.name|, |e.value|), data[..], e)
      ensures forall k | 0 <= k < off :: data[k] == old(data[k])
    {
      Write(off, e.name);
      ghost var named := data[..];
      Write(off + |e.name|, e.value);
      assert data[off..off + |e.name|] == named[off..off + |e.name|];
    }

    method Add(name: seq<byte>, value: seq<byte>)
      requires Valid()
      modifies this, entries, data
      ensures Valid() && maxSize == old(maxSize)
      ensures list == Insert(old(list), maxSize, Entry(name, value))
    {
      var e := Entry(name, value);
      var entrySize := |name| + |value| + 32;
      if entrySize > maxSize {
        Clear();
        return;
      }
      MakeRoom(entrySize);
      Store(e);
    }

    /** The eviction loop of add(); its second disjunct never fires on its own. */
    method MakeRoom(entrySize: nat)
      requires Valid() && 32 <= entrySize <= maxSize
      modifies this
      ensures Valid() && maxSize == old(maxSize) && count < MAX_ENTRIES
      ensures list == Evict(old(list), maxSize - entrySize)
    {
      hide Denotes, InRing, Evict, TableSize;
      TableSizeAtLeast32Each(list);
      while count > 0 && (currentSize + entrySize > maxSize || count == MAX_ENTRIES)
        invariant Valid() && maxSize == old(maxSize)
        invariant count == MAX_ENTRIES ==> currentSize + entrySize > maxSize
        invariant Evict(list, maxSize - entrySize) == Evict(old(list), maxSize - entrySize)
        decreases count
      {
        EvictStep(list, maxSize - entrySize);
        EvictOldest();
      }
      EvictStep(list, maxSize - entrySize);
    }

    /** The post-compaction fit of add(): live bytes are at most maxSize - 32 per entry. */
    method Reserve(bytes: nat)
      requires Valid() && TableSize(list) + bytes + 32 <= maxSize
      modifies this, entries, data
      ensures Valid() && list == old(list) && maxSize == old(maxSize) && count == old(count)
      ensures dataEnd + bytes <= STORAGE_BYTES
    {
      if dataEnd + bytes > STORAGE_BYTES {
        Compact();
      }
      DenotesBounds(slots, dataBegin, dataEnd, data[..], list);
    }

    method PushSlot(slot: Slot)
      requires entries.Length == MAX_ENTRIES && first < MAX_ENTRIES && count == |slots| < MAX_ENTRIES
      requires InRing(entries[..], first, slots)
      modifies entries
      ensures InRing(entries[..], first, slots + [slot])
    {
      RingIsModulo(first, count);
      RingPush(entries[..], first, slots, slot);
      entries[(first + count) % MAX_ENTRIES] := slot;
    }

    /** Bytes and descriptor of e are in place past the live ones; nothing is published yet. */
    method Place(e: Entry)
      requires Valid() && count < MAX_ENTRIES && dataEnd + |e.name| + |e.value| <= STORAGE_BYTES
      modifies entries, data
      ensures count == 0 ==> dataBegin == dataEnd
      ensures InRing(entries[..], first, slots + [Slot(dataEnd, |e.name|, |e.value|)])
      ensures Denotes(slots + [Slot(dataEnd, |e.name|, |e.value|)], dataBegin, dataEnd + |e.name| + |e.value|, data[..], [e] + list)
    {
      DenotesBounds(slots, dataBegin, dataEnd, data[..], list);
      ghost var before := data[..];
      WriteEntry(dataEnd, e);
      DenotesAppended(slots, dataBegin, dataEnd, before, data[..], list, e);
      PushSlot(Slot(dataEnd, |e.name|, |e.value|));
    }

    method Store(e: Entry)
      requires Valid() && count < MAX_ENTRIES
      requires TableSize(list) + EntrySize(e) <= maxSize
      modifies this, entries, data
      ensures Valid() && maxSize == old(maxSize)
      ensures list == [e] + old(list)
    {
      hide Denotes, InRing, TableSize;
      var bytes := |e.name| + |e.value|;
      Reserve(bytes);
      Place(e);
      TableSizeCons(e, list);
      slots, list := slots + [Slot(dataEnd, |e.name|, |e.value|)], [e] + list;
      if count == 0 {
        dataBegin := dataEnd;
      }
      dataEnd := dataEnd + bytes;
      count := count + 1;
      currentSize := currentSize + bytes + 32;
    }

    method Get(index: nat) returns (ok: bool, name: seq<byte>, value: seq<byte>)
      requires Valid()
      ensures ok <==> index < |list|
      ensures ok ==> Entry(name, value) == list[index]
    {
      ok, name, value := false, [], [];
      if index >= count {
        return;
      }
      RingIsModulo(first, count - 1 - index);
      var e := entries[(first + count - 1 - index) % MAX_ENTRIES];
      DenotesAt(slots, dataBegin, dataEnd, data[..], list, index);
      assert e == slots[count - 1 - index];
      ok := true;
      name := data[e.off..e.off + e.nameLen];
      value := data[e.off + e.nameLen..e.off + e.nameLen + e.valueLen];
    }

    method SetMaxSize(newMax: nat)
      requires Valid() && newMax <= STORAGE_BYTES
      modifies this
      ensures Valid() && maxSize == newMax
      ensures list == Evict(old(list), newMax)
    {
      var bound := newMax;
      while count > 0 && currentSize > bound
        invariant Valid()
        invariant Evict(list, newMax) == Evict(old(list), newMax)
        decreases count
      {
        EvictOldest();
      }
      maxSize := bound;
    }

    method Clear()
      requires Valid()
      modifies this
      ensures Valid() && maxSize == old(maxSize) && list == []
    {
      first, count, currentSize, dataBegin, dataEnd, slots, list := 0, 0, 0, 0, 0, [], [];
    }
  }
}
