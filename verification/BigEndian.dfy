/** The store's keys: `new(big.Int).SetUint64(h).Bytes()`, the big-endian bytes of a
    height without leading zeros. */
module BigEndian {

  newtype byte = x: int | 0 <= x < 256

  const TWO_TO_THE_64: nat := 0x1_0000_0000_0000_0000

  type uint64 = n: nat | n < TWO_TO_THE_64

  /** Addition of uint64 values, which wraps around. */
  function Plus(n: uint64, d: uint64): uint64 {
    if n + d < TWO_TO_THE_64 then n + d else n + d - TWO_TO_THE_64
  }

  predicate NoLeadingZero(s: seq<byte>) {
    s != [] ==> s[0] != 0
  }

  function Value(s: seq<byte>): nat {
    if s == [] then 0 else 256 * Value(s[..|s| - 1]) + s[|s| - 1] as nat
  }

  function Bytes(n: nat): (s: seq<byte>)
    ensures Value(s) == n
    ensures NoLeadingZero(s)
    ensures s == [] <==> n == 0
  {
    if n == 0 then [] else
      var front := Bytes(n / 256);
      var s := front + [(n % 256) as byte];
      assert s[..|s| - 1] == front;
      s
  }

  /** The encoding is the only one without a leading zero. */
  lemma {:induction false} BytesUnique(s: seq<byte>)
    requires NoLeadingZero(s)
    ensures Bytes(Value(s)) == s
  {
    if s != [] {
      var front, last := s[..|s| - 1], s[|s| - 1];
      assert s == front + [last];
      BytesUnique(front);
      var n := Value(s);
      assert n / 256 == Value(front) && n % 256 == last as nat;
    }
  }

  function Power256(k: nat): (p: nat)
    ensures p >= 1
  {
    if k == 0 then 1 else 256 * Power256(k - 1)
  }

  /** A number has at most k bytes exactly when it is below 256 to the k. */
  lemma {:induction false} BytesLength(n: nat, k: nat)
    ensures |Bytes(n)| <= k <==> n < Power256(k)
  {
    if n != 0 {
      if k != 0 {
        BytesLength(n / 256, k - 1);
      }
    }
  }

  lemma Power256Eight()
    ensures Power256(8) == TWO_TO_THE_64
  {
    assert Power256(1) == 0x100;
    assert Power256(2) == 0x1_0000;
    assert Power256(3) == 0x100_0000;
    assert Power256(4) == 0x1_0000_0000;
    assert Power256(5) == 0x100_0000_0000;
    assert Power256(6) == 0x1_0000_0000_0000;
    assert Power256(7) == 0x100_0000_0000_0000;
  }

  /** Keys of two heights agree exactly when the heights do, and no key is longer
      than the eight bytes of a uint64. */
  lemma KeysInjective(a: uint64, b: uint64)
    ensures Bytes(a) == Bytes(b) <==> a == b
    ensures |Bytes(a)| <= 8
  {
    assert Value(Bytes(a)) == a && Value(Bytes(b)) == b;
    BytesLength(a, 8);
    Power256Eight();
  }
}
