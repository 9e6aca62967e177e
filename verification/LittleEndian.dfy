/** Fixed-width little-endian integers as byte sequences. */
module LittleEndian {
  import opened SyTypes
  import opened Arithmetic

  function Pow256(k: nat): nat {
    if k == 0 then 1 else 256 * Pow256(k - 1)
  }

  /** The `k` low-order bytes of `n`, least significant first. */
  function ToLE(n: nat, k: nat): (b: seq<byte>)
    ensures |b| == k
    decreases n, k
  {
    if k == 0 then [] else [n % 256] + ToLE(n / 256, k - 1)
  }

  function FromLE(b: seq<byte>): nat {
    if b == [] then 0 else b[0] + 256 * FromLE(b[1..])
  }

  lemma {:induction false} FromToLE(n: nat, k: nat)
    requires n < Pow256(k)
    ensures FromLE(ToLE(n, k)) == n
    decreases k
  {
    if k == 0 {
    } else {
      FromToLE(n / 256, k - 1);
      assert ToLE(n, k)[1..] == ToLE(n / 256, k - 1);
    }
  }

  lemma ToLENext(low: byte, rest: nat, k: nat)
    requires k != 0
    ensures ToLE(low + 256 * rest, k) == [low] + ToLE(rest, k - 1)
  {
    assert (low + 256 * rest) % 256 == low && (low + 256 * rest) / 256 == rest;
  }

  lemma {:induction false} ToFromLE(b: seq<byte>)
    ensures ToLE(FromLE(b), |b|) == b
  {
    if b == [] {
    } else {
      ToFromLE(b[1..]);
      ToLENext(b[0], FromLE(b[1..]), |b|);
      hide ToLE;
      assert b == [b[0]] + b[1..];
    }
  }

  lemma Pow256Positive(k: nat)
    ensures Pow256(k) > 0
  {
  }

  /** Byte `i` of the encoding is n / 256^i modulo 256. */
  lemma {:induction false} ByteOfLE(n: nat, k: nat, i: nat)
    requires i < k
    ensures Pow256(i) > 0 && ToLE(n, k)[i] == n / Pow256(i) % 256
    decreases i
  {
    Pow256Positive(i);
    if i == 0 {
    } else {
      Pow256Positive(i - 1);
      ByteOfLE(n / 256, k - 1, i - 1);
      DivideTwice(n, 256, Pow256(i - 1));
    }
  }

  lemma Widths()
    ensures Pow256(1) == 0x100 && Pow256(2) == 0x1_0000 && Pow256(4) == 0x1_0000_0000
    ensures Pow256(8) == 0x1_0000_0000_0000_0000
  {
    assert Pow256(4) == 256 * Pow256(3);
    assert Pow256(6) == 256 * Pow256(5) == 65536 * Pow256(4);
    assert Pow256(8) == 256 * Pow256(7) == 65536 * Pow256(6);
  }
}
