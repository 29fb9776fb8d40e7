/** Bytes and little-endian numbers. */
module Bytes {

  newtype Byte = x: int | 0 <= x < 256

  function Power(k: nat): nat {
    if k == 0 then 1 else 256 * Power(k - 1)
  }

  function LittleEndian(n: nat, k: nat): (bytes: seq<Byte>)
    ensures |bytes| == k
  {
    if k == 0 then [] else [(n % 256) as Byte] + LittleEndian(n / 256, k - 1)
  }

  function Number(bytes: seq<Byte>): nat {
    if bytes == [] then 0 else bytes[0] as nat + 256 * Number(bytes[1..])
  }

  lemma {:induction false} NumberOfLittleEndian(n: nat, k: nat)
    requires n < Power(k)
    ensures Number(LittleEndian(n, k)) == n
  {
    if k > 0 {
      NumberOfLittleEndian(n / 256, k - 1);
      assert LittleEndian(n, k)[1..] == LittleEndian(n / 256, k - 1);
    }
  }

  const TWO_63 := 0x8000_0000_0000_0000

  const TWO_64 := 0x1_0000_0000_0000_0000

  lemma Power8()
    ensures Power(8) == TWO_64
  {
    assert Power(4) == 0x1_0000_0000;
    assert Power(5) == 256 * Power(4);
    assert Power(6) == 256 * Power(5);
    assert Power(7) == 256 * Power(6);
  }

  predicate IsInt64(x: int) {
    -TWO_63 <= x < TWO_63
  }

  function Signed(n: nat): int {
    if n >= TWO_63 then n - TWO_64 else n
  }

  function Int64Bytes(x: int): (bytes: seq<Byte>)
    requires IsInt64(x)
    ensures |bytes| == 8
  {
    LittleEndian(if x < 0 then x + TWO_64 else x, 8)
  }

  lemma Int64RoundTrip(x: int)
    requires IsInt64(x)
    ensures Signed(Number(Int64Bytes(x))) == x
  {
    Power8();
    NumberOfLittleEndian(if x < 0 then x + TWO_64 else x, 8);
  }

  function Sum(bytes: seq<Byte>): nat {
    if bytes == [] then 0 else Sum(bytes[..|bytes| - 1]) + bytes[|bytes| - 1] as nat
  }

  lemma Slice(s: seq<Byte>, a: nat, b: nat, c: nat, d: nat)
    requires a <= b <= |s| && c <= d <= b - a
    ensures s[a..b][c..d] == s[a + c..a + d]
  {
    forall i | 0 <= i < d - c
      ensures s[a..b][c..d][i] == s[a + c..a + d][i]
    {
      assert s[a..b][c..d][i] == s[a..b][c + i] == s[a + (c + i)];
    }
  }
}
