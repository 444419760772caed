/** Bytes, and natural numbers written as big-endian bytes. */
module BigEndian {
  type Byte = bv8
  type Bytes = seq<Byte>

  function Pow256(k: nat): nat {
    if k == 0 then 1 else 256 * Pow256(k - 1)
  }

  function ToByte(n: nat): Byte
    requires n < 256
  {
    n as Byte
  }

  function Value(b: Byte): (n: nat)
    ensures n < 256
  {
    b as nat
  }

  lemma ByteRoundTrip(n: nat)
    requires n < 256
    ensures Value(ToByte(n)) == n
  {
    assert n % 256 == n;
  }

  function BE(n: nat, k: nat): (s: Bytes)
    ensures |s| == k
  {
    if k == 0 then [] else BE(n / 256, k - 1) + [ToByte(n % 256)]
  }

  function FromBE(s: Bytes): nat {
    if s == [] then 0 else FromBE(s[..|s| - 1]) * 256 + Value(s[|s| - 1])
  }

  lemma {:induction false} BERoundTrip(n: nat, k: nat)
    requires n < Pow256(k)
    ensures FromBE(BE(n, k)) == n
  {
    hide ToByte, Value;
    if k > 0 {
      ByteRoundTrip(n % 256);
      BERoundTrip(n / 256, k - 1);
      assert BE(n, k)[..k - 1] == BE(n / 256, k - 1);
    }
  }

  /** The most significant byte comes first. */
  lemma {:induction false} FirstByteWeighsMost(s: Bytes)
    requires s != []
    ensures FromBE(s) == Value(s[0]) * Pow256(|s| - 1) + FromBE(s[1..])
  {
    hide Value;
    var n := |s| - 1;
    if n > 0 {
      FirstByteWeighsMost(s[..n]);
      assert s[..n][1..] == s[1..][..n - 1];
      Regroup(Value(s[0]), Pow256(n - 1), FromBE(s[1..][..n - 1]));
    }
  }

  lemma Regroup(a: nat, p: nat, b: nat)
    ensures (a * p + b) * 256 == a * (256 * p) + b * 256
  {}

  lemma TwoBytes(s: Bytes)
    requires |s| == 2
    ensures FromBE(s) == Value(s[0]) * 256 + Value(s[1])
  {
    hide Value;
    assert s[..1][..0] == [];
    assert FromBE(s[..1]) == Value(s[0]);
  }

  lemma Powers()
    ensures Pow256(2) == 65536 && Pow256(4) == 0x1_0000_0000 && Pow256(8) == 0x1_0000_0000_0000_0000
  {
    assert Pow256(4) == 256 * (256 * Pow256(2));
    assert Pow256(6) == 256 * (256 * Pow256(4));
    assert Pow256(8) == 256 * (256 * Pow256(6));
  }

  lemma {:induction false} FromBEBound(s: Bytes)
    ensures FromBE(s) < Pow256(|s|)
  {
    if s != [] { FromBEBound(s[..|s| - 1]); }
  }
}
