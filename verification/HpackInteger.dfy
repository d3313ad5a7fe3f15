/** Prefix integers of section 5.1 of RFC 7541. */
module HpackInteger {
  import opened Bytes

  /** A decoded item and the octets it took. */
  datatype Parsed<+T> = Parsed(item: T, used: nat)

  const MAX_INTEGER_BYTES: nat := 6
  const TAIL_RANGE: int := 0x8_0000_0000 // 128^5: what five continuation octets can carry

  /** 2^p for the prefix widths the format allows. */
  function Span(p: nat): (s: int)
    requires 1 <= p <= 8
    ensures 2 <= s <= 256 && 256 % s == 0
  {
    if p == 1 then 2 else if p == 2 then 4 else if p == 3 then 8 else if p == 4 then 16
    else if p == 5 then 32 else if p == 6 then 64 else if p == 7 then 128 else 256
  }

  function Groups(v: nat): (g: seq<byte>)
    ensures |g| >= 1
  {
    if v < 128 then [v] else [v % 128 + 128] + Groups(v / 128)
  }

  /** flags are the bits above the prefix that the caller has set. */
  function EncodeInt(v: nat, p: nat, flags: byte): (b: seq<byte>)
    requires 1 <= p <= 8 && flags % Span(p) == 0
    ensures |b| >= 1 && b[0] / Span(p) == flags / Span(p)
  {
    FlagsLeaveRoom(p, flags);
    if v < Span(p) - 1 then
      SumDiv(p, flags, v);
      [flags + v]
    else
      SumDiv(p, flags, Span(p) - 1);
      [flags + Span(p) - 1] + Groups(v - (Span(p) - 1))
  }

  lemma FlagsLeaveRoom(p: nat, flags: byte)
    requires 1 <= p <= 8 && flags % Span(p) == 0
    ensures flags + Span(p) <= 256
  {
  }

  lemma SumDiv(p: nat, flags: byte, v: nat)
    requires 1 <= p <= 8 && flags % Span(p) == 0 && v < Span(p)
    ensures (flags + v) / Span(p) == flags / Span(p) && (flags + v) % Span(p) == v
  {
    if p == 1 {} else if p == 2 {} else if p == 3 {} else if p == 4 {}
    else if p == 5 {} else if p == 6 {} else if p == 7 {} else {}
  }

  function DecodeGroups(b: seq<byte>, left: nat): (r: Option<Parsed<nat>>)
    ensures r.Some? ==> 1 <= r.value.used <= |b|
    decreases left
  {
    if b == [] || left == 0 then None
    else if b[0] < 128 then Some(Parsed(b[0], 1))
    else
      match DecodeGroups(b[1..], left - 1)
      case None => None
      case Some(Parsed(v, used)) => Some(Parsed(b[0] - 128 + 128 * v, used + 1))
  }

  function DecodeInt(b: seq<byte>, p: nat): (r: Option<Parsed<nat>>)
    requires 1 <= p <= 8
    ensures r.Some? ==> 1 <= r.value.used <= |b|
  {
    if b == [] then None
    else if b[0] % Span(p) < Span(p) - 1 then Some(Parsed(b[0] % Span(p), 1))
    else
      match DecodeGroups(b[1..], MAX_INTEGER_BYTES - 1)
      case None => None
      case Some(Parsed(v, used)) => Some(Parsed(Span(p) - 1 + v, used + 1))
  }

  function Pow128(n: nat): (r: int)
    ensures r >= 1
  {
    if n == 0 then 1 else 128 * Pow128(n - 1)
  }

  lemma {:induction false} GroupsRoundTrip(v: nat, left: nat, rest: seq<byte>)
    ensures v < Pow128(left) && left > 0 ==> DecodeGroups(Groups(v) + rest, left) == Some(Parsed(v, |Groups(v)|))
    ensures v >= Pow128(left) || left == 0 ==> DecodeGroups(Groups(v) + rest, left) == None
    decreases left
  {
    if left > 0 {
      var all := Groups(v) + rest;
      if v < 128 {
        assert Pow128(left) == 128 * Pow128(left - 1);
        assert all[0] == v;
      } else {
        assert all[1..] == Groups(v / 128) + rest;
        GroupsRoundTrip(v / 128, left - 1, rest);
        assert Pow128(0) == 1;
        assert v / 128 < Pow128(left - 1) <==> v < 128 * Pow128(left - 1);
      }
    }
  }

  /** The round trip holds exactly below the ceiling that six octets put on a value. */
  lemma IntRoundTrip(v: nat, p: nat, flags: byte, rest: seq<byte>)
    requires 1 <= p <= 8 && flags % Span(p) == 0
    ensures DecodeInt(EncodeInt(v, p, flags) + rest, p)
         == if v < Span(p) - 1 + TAIL_RANGE then Some(Parsed(v, |EncodeInt(v, p, flags)|)) else None
  {
    FlagsLeaveRoom(p, flags);
    var code := EncodeInt(v, p, flags);
    if v < Span(p) - 1 {
      SumDiv(p, flags, v);
    } else {
      SumDiv(p, flags, Span(p) - 1);
      var tail := v - (Span(p) - 1);
      assert (code + rest)[1..] == Groups(tail) + rest;
      GroupsRoundTrip(tail, MAX_INTEGER_BYTES - 1, rest);
      Pow128Of5();
    }
  }

  lemma Pow128Of5()
    ensures Pow128(5) == TAIL_RANGE
  {
    assert Pow128(1) == 128 && Pow128(2) == 128 * Pow128(1) && Pow128(3) == 128 * Pow128(2);
    assert Pow128(4) == 128 * Pow128(3) && Pow128(5) == 128 * Pow128(4);
  }

  lemma {:induction false} GroupsBound(b: seq<byte>, left: nat)
    ensures DecodeGroups(b, left).Some? ==> DecodeGroups(b, left).value.item < Pow128(left)
    decreases left
  {
    if b != [] && left != 0 {
      GroupsBound(b[1..], left - 1);
    }
  }

  /** Every accepted value is below 2^36, so the 64-bit accumulator never wraps. */
  lemma DecodeIntBound(b: seq<byte>, p: nat)
    requires 1 <= p <= 8
    ensures DecodeInt(b, p).Some? ==> DecodeInt(b, p).value.item < 255 + TAIL_RANGE
  {
    if b != [] {
      GroupsBound(b[1..], MAX_INTEGER_BYTES - 1);
      Pow128Of5();
    }
  }

  /** What the octets from i on still have to contribute once those before i have given sum. */
  ghost predicate Partial(input: seq<byte>, p: nat, i: nat, sum: int)
    requires 1 <= p <= 8 && 1 <= i <= MAX_INTEGER_BYTES && i <= |input|
  {
    match DecodeGroups(input[i..], MAX_INTEGER_BYTES - i)
    case None => DecodeInt(input, p) == None
    case Some(Parsed(v, used)) => DecodeInt(input, p) == Some(Parsed(sum + Pow128(i - 1) * v, used + i))
  }

  lemma PartialStep(input: seq<byte>, p: nat, i: nat, sum: int)
    requires 1 <= p <= 8 && 1 <= i < MAX_INTEGER_BYTES && i < |input|
    requires Partial(input, p, i, sum)
    ensures input[i] < 128 ==> DecodeInt(input, p) == Some(Parsed(sum + input[i] * Pow128(i - 1), i + 1))
    ensures input[i] >= 128 ==> Partial(input, p, i + 1, sum + (input[i] - 128) * Pow128(i - 1))
  {
    hide DecodeInt;
    assert input[i..][1..] == input[i + 1..];
    var w, w' := Pow128(i - 1), Pow128(i);
    assert w' == 128 * w;
    hide Pow128;
    match DecodeGroups(input[i + 1..], MAX_INTEGER_BYTES - i - 1)
    case None => Commute(w, input[i]);
    case Some(Parsed(v, used)) =>
      var octet: int := input[i];
      Distribute(w, w', octet - 128, v);
      Commute(w, octet);
  }

  lemma Commute(w: int, low: int)
    ensures w * low == low * w
  {
  }

  lemma Distribute(w: int, w': int, low: int, v: int)
    requires w' == 128 * w
    ensures w * (low + 128 * v) == low * w + w' * v
  {
    assert w * (low + 128 * v) == w * low + w * (128 * v);
    assert w * (128 * v) == (128 * w) * v;
  }

  /** The decoding loop: octet i adds its low seven bits at weight 128^(i-1). */
  method DecodeInteger(input: seq<byte>, prefixBits: int) returns (ok: bool, value: nat, consumed: nat)
    ensures !(1 <= prefixBits <= 8) ==> !ok
    ensures 1 <= prefixBits <= 8 ==>
              DecodeInt(input, prefixBits) == if ok then Some(Parsed(value, consumed)) else None
  {
    hide DecodeInt, DecodeGroups, Partial;
    ok, value, consumed := false, 0, 0;
    if prefixBits < 1 || prefixBits > 8 {
      return;
    }
    DecodeIntStart(input, prefixBits);
    if |input| == 0 {
      return;
    }
    var mask := Span(prefixBits) - 1;
    value := input[0] % Span(prefixBits);
    if value < mask {
      return true, value, 1;
    }
    var i := 1;
    while i < |input| && i < MAX_INTEGER_BYTES
      invariant 1 <= i <= MAX_INTEGER_BYTES && i <= |input|
      invariant value >= 0 && Partial(input, prefixBits, i, value)
    {
      PartialStep(input, prefixBits, i, value);
      value := value + (input[i] % 128) * Pow128(i - 1);
      if input[i] < 128 {
        return true, value, i + 1;
      }
      i := i + 1;
    }
    PartialEnd(input, prefixBits, i, value);
  }

  lemma DecodeIntStart(input: seq<byte>, p: int)
    requires 1 <= p <= 8
    ensures input == [] ==> DecodeInt(input, p) == None
    ensures input != [] && input[0] % Span(p) < Span(p) - 1 ==> DecodeInt(input, p) == Some(Parsed(input[0] % Span(p), 1))
    ensures input != [] && input[0] % Span(p) == Span(p) - 1 ==> Partial(input, p, 1, Span(p) - 1)
  {
    assert Pow128(0) == 1;
  }

  lemma PartialEnd(input: seq<byte>, p: nat, i: nat, sum: int)
    requires 1 <= p <= 8 && 1 <= i <= MAX_INTEGER_BYTES && i <= |input|
    requires Partial(input, p, i, sum)
    requires i == |input| || i == MAX_INTEGER_BYTES
    ensures DecodeInt(input, p) == None
  {
    assert i == |input| ==> input[i..] == [];
  }
}
