/** Decimal numbers in ASCII. */
module Decimals {
  import opened Bytes

  predicate Digit(c: byte) { 48 <= c <= 57 }

  predicate Digits(v: seq<byte>) { forall i | 0 <= i < |v| :: Digit(v[i]) }

  function Number(v: seq<byte>): nat
    requires Digits(v)
  {
    if v == [] then 0 else
      var digit: int := v[|v| - 1];
      assert Digit(v[|v| - 1]);
      Number(v[..|v| - 1]) * 10 + (digit - 48)
  }

  /** The shortest decimal text of a number. */
  function Text(n: nat): (t: seq<byte>)
    ensures t != [] && Digits(t) && Number(t) == n
  {
    if n < 10 then
      OneMore([], n);
      [48 + n]
    else
      var t := Text(n / 10);
      OneMore(t, n % 10);
      TensAndOnes(n);
      t + [48 + n % 10]
  }

  lemma OneMore(t: seq<byte>, d: nat)
    requires Digits(t) && d < 10
    ensures Digits(t + [48 + d]) && Number(t + [48 + d]) == Number(t) * 10 + d
  {
    assert (t + [48 + d])[..|t|] == t;
  }

  lemma TensAndOnes(n: nat)
    ensures n / 10 * 10 + n % 10 == n
  {
  }
}
