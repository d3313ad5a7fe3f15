/** Octets and the big-endian integers of the wire formats. */
module Bytes {

  datatype Option<+T> = None | Some(value: T)

  type byte = x: int | 0 <= x < 256

  const TWO8: int := 0x100
  const TWO16: int := 0x1_0000
  const TWO24: int := 0x100_0000
  const TWO31: int := 0x8000_0000
  const TWO32: int := 0x1_0000_0000

  function Min(a: int, b: int): int { if a < b then a else b }

  /** The octets of an ASCII literal. */
  function Ascii(s: string): (b: seq<byte>)
    ensures |b| == |s|
  {
    seq(|s|, i requires 0 <= i < |s| => (s[i] as int) % 256)
  }

  function GetU16(b: seq<byte>): (v: int)
    requires |b| == 2
    ensures 0 <= v < TWO16
  {
    b[0] * TWO8 + b[1]
  }

  function GetU24(b: seq<byte>): (v: int)
    requires |b| == 3
    ensures 0 <= v < TWO24
  {
    b[0] * TWO16 + b[1] * TWO8 + b[2]
  }

  function GetU32(b: seq<byte>): (v: int)
    requires |b| == 4
    ensures 0 <= v < TWO32
  {
    b[0] * TWO24 + b[1] * TWO16 + b[2] * TWO8 + b[3]
  }

  function PutU24(v: nat): (b: seq<byte>)
    ensures |b| == 3
    ensures v < TWO24 ==> GetU24(b) == v
  {
    var q1 := v / 256;
    var q2 := q1 / 256;
    [q2 % 256, q1 % 256, v % 256]
  }

  function PutU32(v: nat): (b: seq<byte>)
    ensures |b| == 4
    ensures v < TWO32 ==> GetU32(b) == v
  {
    var q1 := v / 256;
    var q2 := q1 / 256;
    var q3 := q2 / 256;
    [q3 % 256, q2 % 256, q1 % 256, v % 256]
  }

  lemma Regroup<T>(a: seq<T>, b: seq<T>, c: seq<T>)
    ensures a + (b + c) == (a + b) + c
  {
  }

  /** The first i of the octets that start at from have been copied to where to starts; nothing else has changed. */
  ghost predicate Copied(s: seq<byte>, b: seq<byte>, to: nat, from: nat, i: nat) {
    && to <= from && from + i <= |s| == |b|
    && s[..to] == b[..to] && s[to..to + i] == b[from..from + i] && s[to + i..] == b[to + i..]
  }

  lemma CopiedMore(s: seq<byte>, b: seq<byte>, to: nat, from: nat, i: nat)
    requires Copied(s, b, to, from, i) && from + i < |s|
    ensures Copied(s[to + i := s[from + i]], b, to, from, i + 1)
  {
    var t := s[to + i := s[from + i]];
    assert s[from + i] == s[to + i..][from - to] == b[to + i..][from - to] == b[from + i];
    assert t[to..to + i + 1] == s[to..to + i] + [b[from + i]];
    assert b[from..from + i + 1] == b[from..from + i] + [b[from + i]];
    assert t[to + i + 1..] == s[to + i..][1..] && b[to + i + 1..] == b[to + i..][1..];
    assert t[..to] == s[..to];
  }

  lemma CopiedAll(s: seq<byte>, b: seq<byte>, to: nat, from: nat, n: nat)
    requires Copied(s, b, to, from, n)
    ensures s[from + n..] == b[from + n..]
  {
    assert s[from + n..] == s[to + n..][from - to..] && b[from + n..] == b[to + n..][from - to..];
  }

  /** memmove to lower addresses, overlapping or not. */
  method MoveDown(a: array<byte>, to: nat, from: nat, n: nat)
    requires to <= from && from + n <= a.Length
    modifies a
    ensures Copied(a[..], old(a[..]), to, from, n) && a[from + n..] == old(a[from + n..])
  {
    ghost var b := a[..];
    var i := 0;
    while i < n
      invariant 0 <= i <= n && Copied(a[..], b, to, from, i)
    {
      hide Copied;
      CopiedMore(a[..], b, to, from, i);
      ghost var next := a[..][to + i := a[from + i]];
      a[to + i] := a[from + i];
      assert a[..] == next;
      i := i + 1;
    }
    CopiedAll(a[..], b, to, from, n);
  }

  function Join(chunks: seq<seq<byte>>): seq<byte> {
    if chunks == [] then [] else chunks[0] + Join(chunks[1..])
  }
}
