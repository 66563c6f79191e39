/**
 * Bytes and the 4-byte big-endian length prefix of the wire protocol
 * (`int.from_bytes(raw, 'big')` and `n.to_bytes(4, 'big')`).
 */
module Octets {
  type Byte = b: int | 0 <= b < 256
  type Bytes = seq<Byte>

  /** 256 to the power n. */
  function Pow256(n: nat): (r: nat)
    ensures r >= 1
  {
    if n == 0 then 1 else 256 * Pow256(n - 1)
  }

  /** `int.from_bytes(s, 'big')`: the unsigned big-endian value of any number of bytes. */
  function FromBigEndian(s: Bytes): (r: nat)
    ensures r < Pow256(|s|)
  {
    if s == [] then 0
    else
      var hi := FromBigEndian(s[..|s| - 1]);
      assert hi * 256 + s[|s| - 1] <= (Pow256(|s| - 1) - 1) * 256 + 255;
      hi * 256 + s[|s| - 1]
  }

  /** `n.to_bytes(w, 'big')`; Python raises OverflowError when n >= 256^w, hence the requires. */
  function ToBigEndian(n: nat, w: nat): (r: Bytes)
    requires n < Pow256(w)
    ensures |r| == w
  {
    if w == 0 then []
    else
      assert n / 256 < Pow256(w - 1);
      ToBigEndian(n / 256, w - 1) + [n % 256]
  }

  /** Decoding the prefix gives back the length that was encoded. */
  lemma {:induction false} FromToBigEndian(n: nat, w: nat)
    requires n < Pow256(w)
    ensures FromBigEndian(ToBigEndian(n, w)) == n
  {
    if w > 0 {
      var s := ToBigEndian(n, w);
      assert s[..|s| - 1] == ToBigEndian(n / 256, w - 1);
      FromToBigEndian(n / 256, w - 1);
    }
  }

  /** Encoding a decoded prefix gives back the same bytes: the two are inverse bijections. */
  lemma {:induction false} ToFromBigEndian(s: Bytes)
    ensures ToBigEndian(FromBigEndian(s), |s|) == s
  {
    if s != [] {
      var init := s[..|s| - 1];
      ToFromBigEndian(init);
      var n := FromBigEndian(s);
      assert n / 256 == FromBigEndian(init);
      assert n % 256 == s[|s| - 1];
      assert s == init + [s[|s| - 1]];
    }
  }
}
